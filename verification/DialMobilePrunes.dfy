/** Pruning takes no lock.  What a prune in the middle of a block of another thread can lead to, and exactly
    when: which blocks must be in progress.  And why no thread waits for a lock forever. */
module DialMobilePrunes {
  import opened Wrappers
  import opened Identifiers
  import opened DialMobileModel
  import opened DialMobileCalls
  import opened DialMobileSteps
  import opened DialMobileRuns

  // ---- Where the stasis thread is ----

  /** The stasis thread is in a block of the call that the state says, and of no other. */
  ghost predicate StasisIsWhere(s: State)
  {
    forall c :: Stasis in CallOf(s, c).blocks <==> s.threads.stasisBlock == Some(c)
  }

  /** It is in a block only after a step that enters one: never while it waits for a dialer to stop. */
  predicate BlockFitsPc(s: State)
  {
    var pc := s.threads.stasis;
    s.threads.stasisBlock.Some? ==> pc.Joining? || pc.Pruning? || (pc.Removing? && pc.stage.StopPush?)
  }

  /** The moves that only the stasis thread makes on a call. */
  predicate OfStasis(move: Move)
  {
    match move
    case CancelsPush(w) => w.Stasis?
    case CompletesPush(w) => w.Stasis?
    case CancelsFallback(w) => w.Stasis?
    case EntersLate(w, _) => w.Stasis?
    case Leaves(w) => w.Stasis?
    case Joins(_) => true
    case _ => false
  }

  lemma OtherMovesKeepStasis(c: CallId, v: Call, move: Move)
    requires CanMove(v, move) && !OfStasis(move)
    ensures Stasis in Make(c, v, move).call.blocks <==> Stasis in v.blocks
  {
  }

  lemma ConcurrentMovesKeepStasis(s: State, c: CallId, move: Move)
    requires Concurrent(s, c, move) && CanMove(CallOf(s, c), move)
    ensures Stasis in Make(c, CallOf(s, c), move).call.blocks <==> Stasis in CallOf(s, c).blocks
  {
    OtherMovesKeepStasis(c, CallOf(s, c), move);
  }

  lemma PassiveMovesKeepStasis(c: CallId, v: Call, move: Move)
    requires CanMove(v, move) && (move.Marks? || move.Pops?)
    ensures Make(c, v, move).call.blocks == v.blocks
  {
  }

  lemma CallStepKeepsStasis(s: State, step: Step)
    requires StasisIsWhere(s) && Enabled(s, step) && step.OnCall?
    ensures StasisIsWhere(Apply(s, step))
  {
    ConcurrentMovesKeepStasis(s, step.call, step.move);
    var s' := Apply(s, step);
    forall c ensures Stasis in CallOf(s', c).blocks <==> s'.threads.stasisBlock == Some(c) {
      MoveChanges(s, step.call, step.move, c);
    }
  }

  lemma StasisMoveKeepsStasis(s: State, call: Option<CallId>, move: Move)
    requires StasisIsWhere(s) && Free(s) && CanStasisMove(s, call, move)
    ensures StasisIsWhere(StasisMove(s, call, move))
  {
    var s' := StasisMove(s, call, move);
    forall c ensures Stasis in CallOf(s', c).blocks <==> s'.threads.stasisBlock == Some(c) {
      StasisMoveChanges(s, call, move, c);
    }
  }

  lemma SameCallsKeepStasis(s: State, s': State)
    requires StasisIsWhere(s) && s'.threads.ofCall == s.threads.ofCall
        && s'.threads.stasisBlock == s.threads.stasisBlock
    ensures StasisIsWhere(s')
  {
    forall c ensures Stasis in CallOf(s', c).blocks <==> s'.threads.stasisBlock == Some(c) {
      assert CallOf(s', c).blocks == CallOf(s, c).blocks;
    }
  }

  lemma LeavingKeepsStasis(s: State, step: Step)
    requires StasisIsWhere(s) && Enabled(s, step) && (step.StasisLeaves? || step.MarksGone? || step.Prunes?)
    ensures StasisIsWhere(Apply(s, step))
  {
    var s' := Apply(s, step);
    forall c ensures Stasis in CallOf(s', c).blocks <==> s'.threads.stasisBlock == Some(c) {
      StepIsMove(s, step, c);
      var move := MoveOf(s, step, c);
      if move.Some? && !step.StasisLeaves? {
        PassiveMovesKeepStasis(c, CallOf(s, c), move.value);
      }
      assert Stasis in CallOf(s, c).blocks <==> s.threads.stasisBlock == Some(c);
    }
  }

  lemma HandlerKeepsStasis(s: State, step: Step)
    requires StasisIsWhere(s) && Enabled(s, step)
        && (step.StartsJoin? || step.RefusesPush? || step.StopsFallback? || step.StopsPush?)
    ensures StasisIsWhere(Apply(s, step))
  {
    var pc := s.threads.stasis;
    var call :=
      if step.StartsJoin? then Get(s.bridges.origin, step.bridge) else if step.RefusesPush? then pc.call else Todo(s);
    var move :=
      if step.StartsJoin? then Joins(step.channel)
      else if step.StopsFallback? then CancelsFallback(Stasis)
      else CancelsPush(Stasis);
    if step.StopsFallback? && RemovalFails(s, pc.todo[0]) {
      SameCallsKeepStasis(s, Apply(s, step));
    } else {
      StasisMoveKeepsStasis(s, call, move);
      SameCallsKeepStasis(StasisMove(s, call, move), Apply(s, step));
    }
  }

  lemma StepKeepsStasis(s: State, step: Step)
    requires StasisIsWhere(s) && Enabled(s, step)
    ensures StasisIsWhere(Apply(s, step))
  {
    if step.OnCall? {
      CallStepKeepsStasis(s, step);
    } else if step.StasisLeaves? || step.MarksGone? || step.Prunes? {
      LeavingKeepsStasis(s, step);
    } else if step.StartsJoin? || step.RefusesPush? || step.StopsFallback? || step.StopsPush? {
      HandlerKeepsStasis(s, step);
    } else {
      SameCallsKeepStasis(s, Apply(s, step));
    }
  }

  lemma StepFitsPc(s: State, step: Step)
    requires BlockFitsPc(s) && Enabled(s, step)
    ensures BlockFitsPc(Apply(s, step))
  {
  }

  lemma {:induction false} StasisIsTracked(run: Run, i: nat)
    requires run.FromInitial() && i < |run.states|
    ensures StasisIsWhere(run.states[i]) && BlockFitsPc(run.states[i])
  {
    if i > 0 {
      StasisIsTracked(run, i - 1);
      StasisIsTrackedOn(run, i - 1);
    }
  }

  lemma StasisIsTrackedOn(run: Run, i: nat)
    requires run.Valid() && i < |run.steps| && StasisIsWhere(run.states[i]) && BlockFitsPc(run.states[i])
    ensures StasisIsWhere(run.states[i + 1]) && BlockFitsPc(run.states[i + 1])
  {
    assert run.IsStep(i);
    StepKeepsStasis(run.states[i], run.steps[i]);
    StepFitsPc(run.states[i], run.steps[i]);
  }

  // ---- No thread waits forever for a lock ----

  /** The move by which a worker that is in a block comes nearer to its end. */
  function NextMove(v: Call, w: Worker): Move
  {
    if w.Timer? && v.timer == Some(LegUp) then CancelsPushOfLeg else Leaves(w)
  }

  function NextInBlock(v: Call, c: CallId, w: Worker): Step
  {
    if w.Stasis? then StasisLeaves else OnCall(c, NextMove(v, w))
  }

  lemma NextMoveGoesOn(c: CallId, v: Call, w: Worker)
    requires w in v.blocks
    ensures CanMove(v, NextMove(v, w))
    ensures var v' := Make(c, v, NextMove(v, w)).call;
            w !in v'.blocks || (CanLeave(v', w) && v'.timer == Some(Finished))
  {
  }

  lemma NextStepIsEnabled(s: State, c: CallId, w: Worker)
    requires StasisIsWhere(s) && w in CallOf(s, c).blocks
    ensures Enabled(s, NextInBlock(CallOf(s, c), c, w))
        && MoveOf(s, NextInBlock(CallOf(s, c), c, w), c) == Some(NextMove(CallOf(s, c), w))
  {
    NextMoveGoesOn(c, CallOf(s, c), w);
  }

  /** Whoever is in a block about a call can always go on, and is out of it after two steps of its own: it
      waits for no lock and for no thread. */
  lemma BlocksAlwaysGoOn(run: Run, i: nat, c: CallId, w: Worker)
    requires run.FromInitial() && i < |run.states| && w in CallOf(run.states[i], c).blocks
    ensures var v := CallOf(run.states[i], c);
            && Enabled(run.states[i], NextInBlock(v, c, w))
            && var v' := CallOf(Apply(run.states[i], NextInBlock(v, c, w)), c);
               w !in v'.blocks || (CanMove(v', Leaves(w)) && v'.timer == Some(Finished))
  {
    StasisIsTracked(run, i);
    GoesOnFrom(run.states[i], c, w);
  }

  lemma GoesOnFrom(s: State, c: CallId, w: Worker)
    requires StasisIsWhere(s) && w in CallOf(s, c).blocks
    ensures var step := NextInBlock(CallOf(s, c), c, w);
            && Enabled(s, step)
            && var v' := CallOf(Apply(s, step), c);
               w !in v'.blocks || (CanMove(v', Leaves(w)) && v'.timer == Some(Finished))
  {
    var step := NextInBlock(CallOf(s, c), c, w);
    NextStepIsEnabled(s, c, w);
    NextMoveGoesOn(c, CallOf(s, c), w);
    StepIsMove(s, step, c);
    assert CallOf(Apply(s, step), c) == After(c, KnownOf(s, c), NextMove(CallOf(s, c), w)).v;
  }

  /** While the stasis thread waits in `dialer.stop()` it is in no block, so a dialer thread whose callback
      wants the lock of a call never waits for the stasis thread. */
  lemma NoLockWhileStopping(run: Run, i: nat, c: CallId)
    requires run.FromInitial() && i < |run.states|
    requires run.states[i].threads.stasis.Stopping? || run.states[i].threads.stasis.Marking?
    ensures Stasis !in CallOf(run.states[i], c).blocks
  {
    StasisIsTracked(run, i);
  }

  // ---- Reachable states ----

  ghost predicate Leads(s: State, s': State)
  {
    exists run: Run :: run.Valid() && run.states[0] == s && run.Last() == s'
  }

  lemma LeadsHere(s: State)
    ensures Leads(s, s)
  {
    var run := Run([s], []);
    assert run.Valid() && run.states[0] == s && run.Last() == s;
  }

  lemma LeadsOn(s: State, s': State, step: Step)
    requires Leads(s, s') && Enabled(s', step)
    ensures Leads(s, Apply(s', step))
  {
    var run: Run :| run.Valid() && run.states[0] == s && run.Last() == s';
    var longer := Run(run.states + [Apply(s', step)], run.steps + [step]);
    forall i | 0 <= i < |longer.steps| ensures longer.IsStep(i) {
      if i < |run.steps| {
        assert run.IsStep(i);
      }
    }
    assert longer.Valid() && longer.states[0] == s && longer.Last() == Apply(s', step);
  }

  /** A fact about a call that stays in every run stays on the way to every state that can be reached. */
  lemma LeadsKeepFacts(s: State, s': State, c: CallId, fact: Fact)
    requires Leads(s, s') && Base(c, KnownOf(s, c)) && Is(fact, c, KnownOf(s, c))
    ensures Base(c, KnownOf(s', c)) && Is(fact, c, KnownOf(s', c)) && Frozen(fact, KnownOf(s, c), KnownOf(s', c))
  {
    var run: Run :| run.Valid() && run.states[0] == s && run.Last() == s';
    FactsStay(run, 0, |run.steps|, c, fact);
  }

  /** One more move of another thread. */
  lemma MovesOn(s: State, s1: State, c: CallId, move: Move) returns (s2: State)
    requires Leads(s, s1) && Concurrent(s1, c, move) && CanMove(CallOf(s1, c), move)
    ensures Leads(s, s2) && KnownOf(s2, c) == After(c, KnownOf(s1, c), move)
    ensures s2.bridges == s1.bridges && s2.threads.stasis == s1.threads.stasis
        && s2.threads.stasisBlock == s1.threads.stasisBlock
    ensures s2.history.dialed == s1.history.dialed && s2.calls.fallbacks.Keys <= s1.calls.fallbacks.Keys + {c}
    ensures var e := Make(c, CallOf(s1, c), move).effect;
            s2.history.trace == if e.Some? then Then(s1.history.trace, e.value) else s1.history.trace
  {
    LeadsOn(s, s1, OnCall(c, move));
    s2 := Apply(s1, OnCall(c, move));
    MoveChanges(s1, c, move, c);
  }

  // ---- Exactly when a pruned call comes back ----

  predicate HasEntry(s: State, c: CallId) { c in s.calls.incoming || c in s.calls.fallbacks }

  /** What somebody is going to write who is in a block about a call that is not known: an entry for it. */
  lemma BlockHasEntry(c: CallId, k: Known, w: Worker)
    requires Base(c, k) && w in k.v.blocks && k.v.incoming.None? && k.v.fallback.None? && !k.v.locked
    ensures var v1 := if NextMove(k.v, w).Leaves? then k.v else Make(c, k.v, NextMove(k.v, w)).call;
            && CanLeave(v1, w) && v1.blocks[w].fallback == k.v.blocks[w].fallback
            && var v2 := Leave(c, v1, w).call;
               && (v2.incoming.Some? || v2.fallback.Some?) && !v2.locked
               && (k.v.blocks[w].fallback.Some? ==> v2.fallback.Some?)
  {
    assert BlockIsSound(c, k, w, k.v.blocks[w]);
  }

  predicate SameStasisPc(s: State, s': State)
  {
    s'.bridges == s.bridges && s'.threads.stasis == s.threads.stasis && s'.history.dialed == s.history.dialed
    && (s.threads.stasisBlock.None? ==> s'.threads.stasisBlock.None?)
  }

  /** Whoever is in a block about a call that is not known writes an entry for it. */
  lemma BlockBringsBack(s: State, c: CallId, w: Worker) returns (s': State)
    requires Base(c, KnownOf(s, c)) && StasisIsWhere(s) && w in CallOf(s, c).blocks
    requires c !in s.calls.incoming && c !in s.calls.fallbacks && c !in s.calls.locks
    ensures Leads(s, s') && HasEntry(s', c) && c !in s'.calls.locks && SameStasisPc(s, s')
    ensures CallOf(s, c).blocks[w].fallback.Some? ==> c in s'.calls.fallbacks
  {
    LeadsHere(s);
    BlockHasEntry(c, KnownOf(s, c), w);
    NextStepIsEnabled(s, c, w);
    var step := NextInBlock(CallOf(s, c), c, w);
    LeadsOn(s, s, step);
    StepIsMove(s, step, c);
    s' := Apply(s, step);
    if !NextMove(CallOf(s, c), w).Leaves? {
      s' := MovesOn(s, s', c, Leaves(w));
    }
  }

  /** A pruned call gets an entry again in some run exactly if somebody is in a block about it. */
  lemma ComesBackExactly(run: Run, i: nat, c: CallId)
    requires run.FromInitial() && i < |run.states| && IsPruned(run.states[i], c)
    ensures (exists s' :: Leads(run.states[i], s') && HasEntry(s', c)) <==> InBlock(run.states[i], c)
  {
    var s := run.states[i];
    EveryCallIsSound(run, i, c);
    StasisIsTracked(run, i);
    if InBlock(s, c) {
      var w :| w in CallOf(s, c).blocks;
      var s' := BlockBringsBack(s, c, w);
    } else {
      forall s' | Leads(s, s') ensures !HasEntry(s', c) {
        LeadsKeepFacts(s, s', c, IsGone);
      }
    }
  }

  /** The stasis thread is about to pop this entry of the call. */
  predicate AboutToPop(s: State, c: CallId, entry: Entry)
  {
    Free(s) && s.threads.stasis.Popping? && s.threads.stasis.pruned == c && s.threads.stasis.pop == PopEntry(entry)
  }

  lemma AfterPopIs(run: Run, c: CallId, entry: Entry)
    requires run.FromInitial() && AboutToPop(run.Last(), c, entry)
    ensures Enabled(run.Last(), Prunes)
    ensures var popped := Apply(run.Last(), Prunes);
            && KnownOf(popped, c) == After(c, KnownOf(run.Last(), c), Pops(entry))
            && Base(c, KnownOf(run.Last(), c)) && Base(c, KnownOf(popped, c)) && StasisIsWhere(popped) && Free(popped)
            && (entry.OfIncoming? ==> !popped.threads.stasis.Popping?)
  {
    EveryCallIsSound(run, |run.steps|, c);
    StasisIsTracked(run, |run.steps|);
    StepIsMove(run.Last(), Prunes, c);
    MovesKeepBase(c, KnownOf(run.Last(), c), Pops(entry));
    StepKeepsStasis(run.Last(), Prunes);
  }

  /** The end of any prune of a call whose push was requested: its dictionaries can stop agreeing from then on
      exactly if somebody is in a block about it by then, or something was written behind the pops. */
  lemma PruneBreaksKeysExactly(run: Run, c: CallId)
    requires run.FromInitial() && AboutToPop(run.Last(), c, OfIncoming) && CallOf(run.Last(), c).requested
    ensures var pruned := Apply(run.Last(), Prunes);
            (exists s' :: Leads(pruned, s') && !BeingPruned(s', c) && !KeysAgree(s', c))
                <==> InBlock(pruned, c) || !IsPruned(pruned, c)
  {
    var pruned := Apply(run.Last(), Prunes);
    AfterPopIs(run, c, OfIncoming);
    if !IsPruned(pruned, c) {
      LeadsHere(pruned);
      assert !BeingPruned(pruned, c) && !KeysAgree(pruned, c);
    } else if InBlock(pruned, c) {
      var w :| w in CallOf(pruned, c).blocks;
      var s' := BlockBringsBack(pruned, c, w);
      assert !BeingPruned(s', c) && !KeysAgree(s', c);
    } else {
      forall s' | Leads(pruned, s') ensures KeysAgree(s', c) {
        LeadsKeepFacts(pruned, s', c, IsGone);
      }
    }
  }

  // ---- Exactly when the assertion can fail ----

  /** A fallback is there, or somebody is going to write one. */
  predicate WillHaveFallback(v: Call)
  {
    v.fallback.Some? || exists w :: w in v.blocks && v.blocks[w].fallback.Some?
  }

  /** The call was requested, and its lock and its incoming call are gone. */
  predicate IsUnlocked(s: State, c: CallId)
  {
    CallOf(s, c).requested && c !in s.calls.locks && c !in s.calls.incoming
  }

  lemma FallbackComes(s: State, c: CallId) returns (s': State)
    requires Base(c, KnownOf(s, c)) && StasisIsWhere(s) && IsUnlocked(s, c) && WillHaveFallback(CallOf(s, c))
    ensures Leads(s, s') && AssertionFails(CallOf(s', c)) && SameStasisPc(s, s')
  {
    if CallOf(s, c).fallback.Some? {
      LeadsHere(s);
      s' := s;
    } else {
      var w :| w in CallOf(s, c).blocks && CallOf(s, c).blocks[w].fallback.Some?;
      s' := BlockBringsBack(s, c, w);
    }
  }

  /** Once the lock of a call is popped, and its incoming call, there can be a fallback without a lock exactly if
      one is there or somebody is in a block that is going to write one. */
  lemma AssertionFailsExactly(run: Run, i: nat, c: CallId)
    requires run.FromInitial() && i < |run.states| && IsUnlocked(run.states[i], c)
    ensures (exists s' :: Leads(run.states[i], s') && AssertionFails(CallOf(s', c)))
        <==> WillHaveFallback(CallOf(run.states[i], c))
  {
    var s := run.states[i];
    EveryCallIsSound(run, i, c);
    StasisIsTracked(run, i);
    if WillHaveFallback(CallOf(s, c)) {
      var s' := FallbackComes(s, c);
    } else {
      forall s' | Leads(s, s') ensures !AssertionFails(CallOf(s', c)) {
        LeadsKeepFacts(s, s', c, IsHarmless);
      }
    }
  }

  /** A dialer of the call is there, whose callback would evaluate the assertion and raise. */
  predicate AssertionRaises(s: State, c: CallId)
  {
    AssertionFails(CallOf(s, c)) && exists b :: b in s.bridges.dialers && Get(s.bridges.origin, b) == Some(c)
  }

  lemma ABridgeIsNew(used: set<BridgeId>) returns (b: BridgeId)
    ensures b !in used
  {
    var n := Longest(used);
    b := BridgeId(seq(n + 1, i => 'b'));
  }

  /** A length that no id in the set exceeds. */
  ghost function Longest(used: set<BridgeId>): (n: nat)
    ensures forall b :: b in used ==> |b.name| <= n
  {
    if used == {} then 0
    else
      var b :| b in used;
      var n := Longest(used - {b});
      if n < |b.name| then |b.name| else n
  }

  /** The assertion is then evaluated, and raises, in some run exactly under the same condition: the same origin
      call only has to be dialed once more. */
  lemma AssertionRaisesExactly(run: Run, i: nat, c: CallId)
    requires run.FromInitial() && i < |run.states| && IsUnlocked(run.states[i], c)
    requires run.states[i].threads.stasis.Idle? && Free(run.states[i])
    ensures (exists s' :: Leads(run.states[i], s') && AssertionRaises(s', c))
        <==> WillHaveFallback(CallOf(run.states[i], c))
  {
    var s := run.states[i];
    AssertionFailsExactly(run, i, c);
    if WillHaveFallback(CallOf(s, c)) {
      EveryCallIsSound(run, i, c);
      StasisIsTracked(run, i);
      var failing := FallbackComes(s, c);
      var b := ABridgeIsNew(failing.history.dialed.Keys);
      var step := Dials(ChannelId("caller"), c, Aor("aor"), b);
      LeadsOn(s, failing, step);
      StepIsMove(failing, step, c);
      assert b in Apply(failing, step).bridges.dialers && Get(Apply(failing, step).bridges.origin, b) == Some(c);
      assert AssertionRaises(Apply(failing, step), c);
    }
  }

  // ---- Exactly when the push protocol breaks ----

  /** Two cancellations were sent for one push, or a push was sent twice. */
  predicate ProtocolFails(s: State, c: CallId) { !LegalPushes(c, Log(s.history.trace, PushOf(c))) }

  /** The mobile answered, and its push was cancelled. */
  predicate CancelledThoughReceived(s: State, c: CallId)
  {
    c in s.calls.incoming && s.calls.incoming[c].Received? && !NotCancelled(Log(s.history.trace, PushOf(c)))
  }

  predicate IsNotified(v: Call) { v.incoming.Some? && v.incoming.value.Notified? }

  predicate IsPending(v: Call) { v.incoming.Some? && v.incoming.value.Pending? }

  /** The push is out, or being sent, or still to be sent and nobody is ending it. */
  predicate PushIsLive(v: Call)
  {
    Sender in v.blocks || IsNotified(v) || (IsPending(v) && v.blocks == map[])
  }

  /** A number that no bus thread in a block has, nor its successor. */
  lemma AThreadIsNew(blocks: map<Worker, Block>) returns (n: nat)
    ensures Bus(n) !in blocks && Bus(n + 1) !in blocks
  {
    n := Highest(blocks.Keys) + 1;
  }

  ghost function Highest(workers: set<Worker>): (n: nat)
    ensures forall w :: w in workers && w.Bus? ==> w.thread <= n
  {
    if workers == {} then 0
    else
      var w :| w in workers;
      var n := Highest(workers - {w});
      if w.Bus? && n < w.thread then w.thread else n
  }

  /** Two threads that both find a Notified push without a lock. */
  lemma NotifiedBreaks(s0: State, s: State, c: CallId) returns (twice: State, both: State)
    requires Leads(s0, s) && Base(c, KnownOf(s, c)) && IsNotified(CallOf(s, c)) && !CallOf(s, c).locked
    ensures Leads(s0, twice) && ProtocolFails(twice, c)
    ensures Leads(s0, both) && CancelledThoughReceived(both, c)
  {
    var once, n := CancellingOnce(s0, s, c);
    twice := MovesOn(s0, once, c, CancelsPush(Bus(n + 1)));
    both := CompletedToo(s0, once, c, n + 1);
  }

  /** The first of them has read, and cancels the push. */
  lemma CancellingOnce(s0: State, s: State, c: CallId) returns (once: State, n: nat)
    requires Leads(s0, s) && Base(c, KnownOf(s, c)) && IsNotified(CallOf(s, c)) && !CallOf(s, c).locked
    ensures Leads(s0, once) && IsNotified(CallOf(once, c)) && !CallOf(once, c).locked
    ensures Bus(n + 1) !in CallOf(once, c).blocks
    ensures KnownOf(once, c).pushes.Then? && KnownOf(once, c).pushes.last.PushCancelSent?
  {
    n := AThreadIsNew(CallOf(s, c).blocks);
    once := MovesOn(s0, s, c, CancelsPush(Bus(n)));
  }

  lemma CompletedToo(s0: State, once: State, c: CallId, n: nat) returns (both: State)
    requires Leads(s0, once) && IsNotified(CallOf(once, c)) && !CallOf(once, c).locked
    requires Bus(n) !in CallOf(once, c).blocks
    requires KnownOf(once, c).pushes.Then? && KnownOf(once, c).pushes.last.PushCancelSent?
    ensures Leads(s0, both) && CancelledThoughReceived(both, c)
  {
    var completing := MovesOn(s0, once, c, CompletesPush(Bus(n)));
    both := MovesOn(s0, completing, c, Leaves(Bus(n)));
  }

  /** From a live push without a lock, some run makes it Notified without a lock. */
  lemma LiveGetsNotified(s: State, c: CallId) returns (s': State)
    requires Base(c, KnownOf(s, c)) && PushIsLive(CallOf(s, c)) && !CallOf(s, c).locked && Alone(CallOf(s, c))
    ensures Leads(s, s') && Base(c, KnownOf(s', c)) && IsNotified(CallOf(s', c)) && !CallOf(s', c).locked
  {
    LeadsHere(s);
    s' := s;
    if !IsNotified(CallOf(s, c)) {
      if Sender !in CallOf(s, c).blocks {
        s' := MovesOn(s, s, c, Sends(false));
        MovesKeepBase(c, KnownOf(s, c), Sends(false));
      }
      var k := KnownOf(s', c);
      assert BlockIsSound(c, k, Sender, k.v.blocks[Sender]);
      MovesKeepBase(c, k, Leaves(Sender));
      s' := MovesOn(s, s', c, Leaves(Sender));
    }
  }

  lemma LiveBreaks(s: State, c: CallId)
    requires Base(c, KnownOf(s, c)) && PushIsLive(CallOf(s, c)) && !CallOf(s, c).locked && Alone(CallOf(s, c))
    ensures exists s' :: Leads(s, s') && ProtocolFails(s', c)
    ensures exists s' :: Leads(s, s') && CancelledThoughReceived(s', c)
  {
    var notified := LiveGetsNotified(s, c);
    var twice, both := NotifiedBreaks(s, notified, c);
  }

  /** What keeps the protocol when the lock is popped and the push is not live. */
  lemma NotLiveIsSafe(c: CallId, k: Known, k': Known)
    requires Base(c, k) && Orderly(c, k) && k.v.locked && !PushIsLive(k.v) && k' == After(c, k, Pops(OfLock))
    ensures Over(c, k') || Barred(k')
  {
    if IsPending(k.v) {
      var w :| w in k.v.blocks;
      assert BlockIsSound(c, k, w, k.v.blocks[w]) && Holds(k.v, w) && Holds(k'.v, w);
      assert Barred(k');
    } else {
      forall w | w in k.v.blocks && IsReceived(k.v.blocks[w].incoming) ensures NotCancelled(k.pushes) {
        assert EndIsSound(k, k.v.blocks[w]);
      }
      assert Over(c, k');
    }
  }

  /** The prune of a call whose blocks never overlapped pops its lock: from then on two cancellations for one
      push, and a cancellation of a push that was Received, are possible exactly if the push is live. */
  lemma PruneBreaksPushesExactly(run: Run, c: CallId)
    requires run.FromInitial() && NeverOverlap(run, |run.steps|, c)
    requires AboutToPop(run.Last(), c, OfLock) && c in run.Last().calls.locks
    ensures (exists s' :: Leads(Apply(run.Last(), Prunes), s') && ProtocolFails(s', c))
        <==> PushIsLive(CallOf(run.Last(), c))
    ensures (exists s' :: Leads(Apply(run.Last(), Prunes), s') && CancelledThoughReceived(s', c))
        <==> PushIsLive(CallOf(run.Last(), c))
  {
    var k, popped := KnownOf(run.Last(), c), Apply(run.Last(), Prunes);
    AfterPopIs(run, c, OfLock);
    NeverOverlapIsOrderly(run, |run.steps|, c);
    if PushIsLive(k.v) {
      LiveBreaks(popped, c);
    } else {
      NotLiveIsSafe(c, k, KnownOf(popped, c));
      NothingBreaks(popped, c);
    }
  }

  lemma NothingBreaks(s: State, c: CallId)
    requires Base(c, KnownOf(s, c)) && (Over(c, KnownOf(s, c)) || Barred(KnownOf(s, c)))
    ensures forall s' :: Leads(s, s') ==> !ProtocolFails(s', c) && !CancelledThoughReceived(s', c)
  {
    var fact := if Over(c, KnownOf(s, c)) then IsOver else IsBarred;
    forall s' | Leads(s, s') ensures !ProtocolFails(s', c) && !CancelledThoughReceived(s', c) {
      LeadsKeepFacts(s, s', c, fact);
    }
  }

  // ---- Runs in which it happens ----

  /** What a whole prune leaves of a call. */
  function Forgotten(v: Call): Call
  {
    v.(incoming := None, fallback := None, locked := false, ringTime := None)
  }

  function WithoutBridge(m: BridgeMaps, b: BridgeId, c: CallId): BridgeMaps
  {
    m.(origin := m.origin - {b}, byOrigin := m.byOrigin - {c}, callerLeg := m.callerLeg - {b})
  }

  /** One more entry is popped. */
  lemma PopsOn(s0: State, s: State, c: CallId, entry: Entry) returns (s': State)
    requires Leads(s0, s) && AboutToPop(s, c, entry)
    ensures Leads(s0, s') && Free(s') && s'.threads.stasis
        == AfterPop(s.threads.stasis.bridge, c, entry, s.threads.stasis.next)
    ensures s'.bridges == s.bridges && s'.history == s.history && CallOf(s', c) == Forget(CallOf(s, c), entry)
    ensures s'.calls.fallbacks.Keys <= s.calls.fallbacks.Keys
  {
    LeadsOn(s0, s, Prunes);
    s' := Apply(s, Prunes);
    StepIsMove(s, Prunes, c);
  }

  lemma PopsEntries(s0: State, s: State, c: CallId) returns (s': State)
    requires Leads(s0, s) && AboutToPop(s, c, OfRingTime)
    ensures Leads(s0, s') && Free(s') && s'.threads.stasis == Closing(s.threads.stasis.bridge, s.threads.stasis.next)
    ensures s'.bridges == s.bridges && s'.history == s.history && CallOf(s', c) == Forgotten(CallOf(s, c))
    ensures s'.calls.fallbacks.Keys <= s.calls.fallbacks.Keys
  {
    var s1 := PopsOn(s0, s, c, OfRingTime);
    var s2 := PopsOn(s0, s1, c, OfFallback);
    var s3 := PopsOn(s0, s2, c, OfLock);
    s' := PopsOn(s0, s3, c, OfIncoming);
  }

  /** The stasis thread looks the call up and pops its bridge. */
  lemma PopsBridges(s0: State, s: State, b: BridgeId, next: seq<BridgeId>, c: CallId) returns (s': State)
    requires Leads(s0, s) && Free(s) && s.threads.stasis == Pruning(b, next) && Get(s.bridges.origin, b) == Some(c)
    ensures Leads(s0, s') && AboutToPop(s', c, OfRingTime)
        && s'.threads.stasis == Popping(b, c, PopEntry(OfRingTime), next)
    ensures s'.bridges == s.bridges.(origin := s.bridges.origin - {b}, byOrigin := s.bridges.byOrigin - {c})
    ensures s'.history == s.history && CallOf(s', c) == CallOf(s, c) && s'.calls == s.calls
  {
    LeadsOn(s0, s, Prunes);
    var looked := Apply(s, Prunes);
    LeadsOn(s0, looked, Prunes);
    s' := Apply(looked, Prunes);
  }

  /** A whole prune in which nothing else runs. */
  lemma WholePrune(s0: State, s: State, b: BridgeId, next: seq<BridgeId>, c: CallId) returns (s': State)
    requires Leads(s0, s) && Free(s) && s.threads.stasis == Pruning(b, next) && Get(s.bridges.origin, b) == Some(c)
    ensures Leads(s0, s') && Free(s') && s'.threads.stasis == Onwards(next)
    ensures s'.bridges == WithoutBridge(s.bridges, b, c) && s'.history == s.history
        && CallOf(s', c) == Forgotten(CallOf(s, c))
    ensures s'.calls.fallbacks.Keys <= s.calls.fallbacks.Keys
  {
    var looked := PopsBridges(s0, s, b, next, c);
    var popped := PopsEntries(s0, looked, c);
    LeadsOn(s0, popped, Prunes);
    s' := Apply(popped, Prunes);
  }

  /** A call that was just requested, and dialed for a bridge. */
  ghost predicate IsDialed(s: State, c: CallId, b: BridgeId)
  {
    && Leads(Initial, s) && Free(s) && Get(s.bridges.origin, b) == Some(c) && s.calls.fallbacks.Keys <= {c}
    && b in s.bridges.dialers && b in s.bridges.callerLeg && CallOf(s, c).blocks == map[] && CallOf(s, c).fallback.None?
  }

  lemma DialedCall(c: CallId, b: BridgeId) returns (s: State)
    ensures IsDialed(s, c, b) && s.threads.stasis.Idle? && CallOf(s, c) == CallOf(Initial, c)
    ensures s.bridges == AddDialer(Initial.bridges, ChannelId("caller"), c, Aor("aor"), b)
        && s.history.dialed == map[b := {}]
  {
    LeadsHere(Initial);
    LeadsOn(Initial, Initial, Dials(ChannelId("caller"), c, Aor("aor"), b));
    s := Dial(Initial, ChannelId("caller"), c, Aor("aor"), b);
  }

  lemma PushedCall(c: CallId, b: BridgeId) returns (s: State)
    ensures IsDialed(s, c, b) && s.threads.stasis.Idle? && CallOf(s, c).requested && IsNotified(CallOf(s, c))
  {
    var info := PushInfo("id", "tenant", "user", "payload");
    var dialed := DialedCall(c, b);
    var requested := MovesOn(Initial, dialed, c, SendsFirst(info, 30));
    var sending := MovesOn(Initial, requested, c, Sends(false));
    s := MovesOn(Initial, sending, c, Leaves(Sender));
    assert (map[Sender := Block(true, Some(Notified(info)), None)] - {Sender}) == map[];
  }

  /** The head of a join of a call without a fallback only moves the stasis thread. */
  lemma HeadOfUnarmedJoin(s: State, c: CallId, b: BridgeId, channel: ChannelId) returns (joining: State)
    requires s.threads.stasis.Idle? && Free(s) && Get(s.bridges.origin, b) == Some(c)
    requires CallOf(s, c).fallback.None? && CallOf(s, c).blocks == map[]
    ensures Enabled(s, StartsJoin(channel, b)) && joining == Apply(s, StartsJoin(channel, b))
    ensures joining.bridges == s.bridges && joining.threads.stasis == Joining(channel, b, Some(c)) && Free(joining)
    ensures CallOf(joining, c) == CallOf(s, c) && joining.history == s.history
    ensures joining.calls.fallbacks.Keys <= s.calls.fallbacks.Keys + {c}
  {
    assert EnterJoin(c, CallOf(s, c), channel) == Did(CallOf(s, c), None);
    joining := JoinHead(s, channel, b);
    PutKeepsOthers(s, c, CallOf(s, c), c);
  }

  /** A join of such a call that bridges, up to its prune. */
  lemma JoinOfUnarmed(s: State, c: CallId, b: BridgeId) returns (bridged: State)
    requires IsDialed(s, c, b) && s.threads.stasis.Idle?
    ensures Leads(Initial, bridged) && Free(bridged) && bridged.threads.stasis == Pruning(b, [])
        && CallOf(bridged, c) == CallOf(s, c)
    ensures bridged.bridges == DropDialer(s.bridges, b) && bridged.history.dialed == s.history.dialed
    ensures bridged.calls.fallbacks.Keys <= {c}
  {
    var joining := HeadOfUnarmedJoin(s, c, b, ChannelId("mobile"));
    LeadsOn(Initial, s, StartsJoin(ChannelId("mobile"), b));
    LeadsOn(Initial, joining, TakesDialer);
    var stopping := JoinTake(joining, ChannelId("mobile"), b, Some(c));
    LeadsOn(Initial, stopping, Connects(Bridged));
    bridged := JoinConnect(stopping, ChannelId("mobile"), b, Some(c), Bridged);
  }

  /** The bridge is created, the bus thread starts to cancel the push because a channel entered the bridge, the
      stasis thread prunes, and the bus thread writes: the call is known again, without a lock, for good. */
  lemma PruneInsideCancelPush() returns (s: State, c: CallId)
    ensures Leads(Initial, s) && s.threads.stasis.Idle?
    ensures c in s.calls.incoming && c !in s.calls.locks && c !in s.calls.ringTime && !KeysAgree(s, c)
  {
    c := CallId("call");
    var b := BridgeId("bridge");
    var pushed := PushedCall(c, b);
    var bridged := JoinOfUnarmed(pushed, c, b);
    var cancelling := MovesOn(Initial, bridged, c, CancelsPush(Bus(0)));
    var pruned := WholePrune(Initial, cancelling, b, [], c);
    s := MovesOn(Initial, pruned, c, Leaves(Bus(0)));
  }

  // ---- A run in which the assertion ends a handler ----

  /** A call dialed for two bridges, and requested. */
  lemma DialedTwice(c: CallId, b1: BridgeId, b2: BridgeId) returns (s: State)
    requires b1 != b2
    ensures IsDialed(s, c, b1) && s.threads.stasis.Idle? && CallOf(s, c).send.Some? && IsPending(CallOf(s, c))
        && CallOf(s, c).locked
    ensures s.bridges.dialers.Keys == {b1, b2} && s.bridges.dialers[b2].caller == ChannelId("second")
    ensures Get(s.bridges.origin, b2) == Some(c) && b2 in s.bridges.callerLeg
        && s.history.dialed == map[b1 := {}, b2 := {}]
  {
    var dialed := DialedCall(c, b1);
    var step := Dials(ChannelId("second"), c, Aor("aor"), b2);
    LeadsOn(Initial, dialed, step);
    StepIsMove(dialed, step, c);
    s := MovesOn(Initial, Apply(dialed, step), c, SendsFirst(PushInfo("id", "tenant", "user", "payload"), 30));
  }

  /** Only the dialer of the second bridge is left, and its call is known by its fallback at most. */
  ghost predicate SecondIsLeft(s: State, c: CallId, b: BridgeId)
  {
    && Leads(Initial, s) && Free(s) && s.calls.fallbacks.Keys <= {c}
    && s.bridges.dialers.Keys == {b} && s.bridges.dialers[b].caller == ChannelId("second")
    && Get(s.bridges.origin, b) == Some(c) && b in s.bridges.callerLeg
    && (forall d :: d in s.history.dialed ==> s.history.dialed[d] == {})
  }

  /** The first bridge is joined, and pruned while the send is between its push and its write. */
  lemma PrunedInSend(c: CallId, b1: BridgeId, b2: BridgeId) returns (s: State)
    requires b1 != b2
    ensures SecondIsLeft(s, c, b2) && s.threads.stasis.Idle? && !CallOf(s, c).locked
        && CallOf(s, c).blocks.Keys == {Sender}
    ensures CallOf(s, c).blocks[Sender].fallback == Some(FallbackPending)
  {
    var twice := DialedTwice(c, b1, b2);
    var bridged := JoinOfUnarmed(twice, c, b1);
    var sending := MovesOn(Initial, bridged, c, Sends(true));
    s := WholePrune(Initial, sending, b1, [], c);
  }

  lemma ArmedWithoutLock(c: CallId, b1: BridgeId, b2: BridgeId) returns (s: State)
    requires b1 != b2
    ensures SecondIsLeft(s, c, b2) && s.threads.stasis.Idle? && !CallOf(s, c).locked && CallOf(s, c).blocks == map[]
    ensures CallOf(s, c).fallback == Some(FallbackPending)
  {
    var pruned := PrunedInSend(c, b1, b2);
    s := MovesOn(Initial, pruned, c, Leaves(Sender));
    assert (CallOf(pruned, c).blocks - {Sender}).Keys == {};
  }

  /** The caller of the second bridge leaves. */
  lemma HeardGone(s: State, c: CallId, b: BridgeId) returns (s': State)
    requires SecondIsLeft(s, c, b) && s.threads.stasis.Idle? && CallOf(s, c).fallback == Some(FallbackPending)
    ensures SecondIsLeft(s', c, b) && s'.threads.stasis == Marking(ChannelId("second"), {c})
        && CallOf(s', c) == CallOf(s, c)
  {
    LeadsOn(Initial, s, HearsGone(ChannelId("second")));
    s' := GoneStart(s, ChannelId("second"));
    assert c in s.calls.fallbacks && s.calls.fallbacks.Keys == {c};
  }

  /** The fallback of the call is not dialing the channel that is gone. */
  lemma MarkedGone(s: State, c: CallId, b: BridgeId) returns (s': State)
    requires SecondIsLeft(s, c, b) && s.threads.stasis == Marking(ChannelId("second"), {c})
    requires CallOf(s, c).fallback == Some(FallbackPending) && CallOf(s, c).blocks == map[]
    ensures SecondIsLeft(s', c, b) && s'.threads.stasis == Marking(ChannelId("second"), {})
        && CallOf(s', c) == CallOf(s, c)
  {
    LeadsOn(Initial, s, MarksGone(c));
    s' := GoneMark(s, ChannelId("second"), {c}, c);
    NothingMarked(s, ChannelId("second"), {c}, c);
  }

  lemma NothingMarked(s: State, channel: ChannelId, calls: set<CallId>, c: CallId)
    requires CanMove(CallOf(s, c), Marks(channel)) && CallOf(s, c).fallback == Some(FallbackPending)
    ensures var s' := GoneMark(s, channel, calls, c);
            && s'.bridges == s.bridges && s'.history == s.history && s'.calls.fallbacks.Keys == s.calls.fallbacks.Keys
            && s'.threads.stasisBlock == s.threads.stasisBlock && s'.threads.stasis == Marking(channel, calls - {c})
            && CallOf(s', c) == CallOf(s, c)
  {
    PutKeepsOthers(s, c, CallOf(s, c), c);
  }

  /** The handler is about to remove the second dialer. */
  lemma AboutToRemove(s: State, c: CallId, b: BridgeId) returns (s': State)
    requires SecondIsLeft(s, c, b) && s.threads.stasis == Marking(ChannelId("second"), {})
    ensures SecondIsLeft(s', c, b) && s'.threads.stasis == Removing([b], StopFallback) && CallOf(s', c) == CallOf(s, c)
  {
    assert Knowing(s, ChannelId("second")) == {b};
    assert Enumerates([b], Knowing(s, ChannelId("second")));
    LeadsOn(Initial, s, CollectsGone([b]));
    s' := Apply(s, CollectsGone([b]));
    StepIsMove(s, CollectsGone([b]), c);
  }

  /** Then the assertion leaves the handler: the dialer is gone, but its bridge stays in the other dictionaries. */
  lemma AssertionEndsHandler() returns (before: State, s: State, b: BridgeId)
    ensures Leads(Initial, before) && Enabled(before, StopsFallback) && RemovalFails(before, b)
        && s == Apply(before, StopsFallback)
    ensures Leads(Initial, s) && s.threads.stasis.Idle? && Free(s)
    ensures b !in s.bridges.dialers && b in s.bridges.callerLeg && b in s.bridges.origin
  {
    var c, b1 := CallId("call"), BridgeId("first");
    b := BridgeId("second");
    var armed := ArmedWithoutLock(c, b1, b);
    var heard := HeardGone(armed, c, b);
    var marked := MarkedGone(heard, c, b);
    before := AboutToRemove(marked, c, b);
    LeadsOn(Initial, before, StopsFallback);
    s := Apply(before, StopsFallback);
  }
}
