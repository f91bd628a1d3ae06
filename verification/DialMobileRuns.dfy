/** What holds of a call over every run, for every interleaving of the timer thread, the bus handlers,
    the stasis handlers and the dialer callbacks. */
module DialMobileRuns {
  import opened Wrappers
  import opened Identifiers
  import opened DialMobileModel
  import opened DialMobileCalls
  import opened DialMobileSteps

  /** What is known about a call in the i-th state of a run. */
  function KnownAt(run: Run, i: nat, c: CallId): Known
    requires i < |run.states|
  {
    KnownOf(run.states[i], c)
  }

  lemma OneStepIsMove(run: Run, i: nat, c: CallId)
    requires run.Valid() && i < |run.steps|
    ensures IsMove(run.states[i], run.steps[i], c, run.states[i + 1])
  {
    assert run.IsStep(i);
    StepIsMove(run.states[i], run.steps[i], c);
  }

  /** In every state of every run every call is sound. */
  lemma {:induction false} EveryCallIsSound(run: Run, i: nat, c: CallId)
    requires run.FromInitial() && i < |run.states|
    ensures Base(c, KnownAt(run, i, c))
  {
    if i > 0 {
      EveryCallIsSound(run, i - 1, c);
      OneStepKeepsBase(run, i - 1, c);
    }
  }

  lemma OneStepKeepsBase(run: Run, i: nat, c: CallId)
    requires run.Valid() && i < |run.steps| && Base(c, KnownAt(run, i, c))
    ensures Base(c, KnownAt(run, i + 1, c))
  {
    OneStepIsMove(run, i, c);
    var move := MoveOf(run.states[i], run.steps[i], c);
    if move.Some? {
      MovesKeepBase(c, KnownAt(run, i, c), move.value);
    }
  }

  // ---- Blocks that overlap, and blocks during a prune ----

  predicate InBlock(s: State, c: CallId) { CallOf(s, c).blocks != map[] }

  /** The stasis thread has looked the call up in order to prune it, and not yet popped its last entry. */
  predicate BeingPruned(s: State, c: CallId) { s.threads.stasis.Popping? && s.threads.stasis.pruned == c }

  /** Up to the n-th state, no two workers were in blocks about the call at once. */
  ghost predicate NeverOverlap(run: Run, n: nat, c: CallId)
    requires run.Valid() && n < |run.states|
  {
    forall i :: 0 <= i <= n ==> Alone(CallOf(run.states[i], c))
  }

  lemma {:induction false} NeverOverlapIsOrderly(run: Run, n: nat, c: CallId)
    requires run.FromInitial() && n < |run.states| && NeverOverlap(run, n, c)
    ensures Orderly(c, KnownAt(run, n, c))
  {
    if n > 0 {
      NeverOverlapIsOrderly(run, n - 1, c);
      EveryCallIsSound(run, n - 1, c);
      assert Alone(CallOf(run.states[n], c));
      OneStepKeepsOrder(run, n - 1, c);
    }
  }

  lemma OneStepKeepsOrder(run: Run, i: nat, c: CallId)
    requires run.Valid() && i < |run.steps| && Alone(CallOf(run.states[i + 1], c))
    requires Base(c, KnownAt(run, i, c)) && Orderly(c, KnownAt(run, i, c))
    ensures Orderly(c, KnownAt(run, i + 1, c))
  {
    OneStepIsMove(run, i, c);
    var move := MoveOf(run.states[i], run.steps[i], c);
    if move.Some? {
      MovesKeepOrder(c, KnownAt(run, i, c), move.value);
    }
  }

  /** In a state in which the call has its lock, its blocks do not overlap. */
  lemma LockExcludes(run: Run, i: nat, c: CallId)
    requires run.FromInitial() && i < |run.states| && c in run.states[i].calls.locks
    ensures Alone(CallOf(run.states[i], c))
  {
    EveryCallIsSound(run, i, c);
    LockedIsAlone(c, KnownAt(run, i, c));
  }

  /** Its lock is held once at a time, also after its pop: by the sender, the timer thread, or one that got it late. */
  lemma LockIsHeldOnce(run: Run, i: nat, c: CallId, w: Worker, w': Worker)
    requires run.FromInitial() && i < |run.states|
    requires Holds(CallOf(run.states[i], c), w) && Holds(CallOf(run.states[i], c), w')
    ensures w == w'
  {
    EveryCallIsSound(run, i, c);
  }

  predicate Requests(step: Step, c: CallId) { step.OnCall? && step.call == c && step.move.SendsFirst? }

  /** Before the n-th state, while the call was being pruned, nobody was in a block about it and its push was not
      requested. */
  ghost predicate Undisturbed(run: Run, n: nat, c: CallId)
    requires run.Valid() && n < |run.states|
  {
    forall i :: 0 <= i < n && BeingPruned(run.states[i], c) ==> !InBlock(run.states[i], c) && !Requests(run.steps[i], c)
  }

  /** The entries that the prune has popped so far are gone, and nobody is in a block. */
  predicate Stripped(v: Call, pop: Pop)
  {
    && v.blocks == map[]
    && (pop == PopEntry(OfFallback) || pop == PopEntry(OfLock) || pop == PopEntry(OfIncoming) ==> v.ringTime.None?)
    && (pop == PopEntry(OfLock) || pop == PopEntry(OfIncoming) ==> v.fallback.None?)
    && (pop == PopEntry(OfIncoming) ==> !v.locked)
  }

  ghost predicate KeyedOrStripped(s: State, c: CallId)
  {
    if BeingPruned(s, c) then InBlock(s, c) || Stripped(CallOf(s, c), s.threads.stasis.pop) else Keyed(CallOf(s, c))
  }

  lemma StrippedStays(c: CallId, k: Known, move: Move, pop: Pop)
    requires Base(c, k) && Stripped(k.v, pop) && CanMove(k.v, move) && !move.Pops? && !move.SendsFirst?
    ensures After(c, k, move).v.blocks == map[] ==> Stripped(After(c, k, move).v, pop)
  {
  }

  lemma PopStrips(c: CallId, k: Known, entry: Entry)
    requires Stripped(k.v, PopEntry(entry))
    ensures var v' := After(c, k, Pops(entry)).v;
            match AfterPop(BridgeId(""), c, entry, [])
            case Popping(_, _, pop, _) => Stripped(v', pop)
            case _ => Keyed(v')
  {
  }

  /** The stasis thread takes up a prune, or goes on with it, only by popping. */
  lemma OnlyPruneMovesOn(s: State, step: Step)
    requires Enabled(s, step) && !step.Prunes?
    ensures !Apply(s, step).threads.stasis.Popping? || Apply(s, step).threads.stasis == s.threads.stasis
  {
    if step.OnCall? {
    } else if step.StopsFallback? || step.StopsPush? || step.RefusesPush? || step.StartsJoin? {
      assert !Apply(s, step).threads.stasis.Popping?;
    }
  }

  lemma PruneKeepsKeys(s: State, c: CallId)
    requires Base(c, KnownOf(s, c)) && Enabled(s, Prunes) && KeyedOrStripped(s, c)
        && (BeingPruned(s, c) ==> !InBlock(s, c))
    ensures KeyedOrStripped(Apply(s, Prunes), c)
  {
    StepIsMove(s, Prunes, c);
    if MoveOf(s, Prunes, c).Some? {
      PopStrips(c, KnownOf(s, c), s.threads.stasis.pop.entry);
    }
  }

  lemma StepKeepsKeys(s: State, step: Step, c: CallId)
    requires Base(c, KnownOf(s, c)) && Enabled(s, step) && KeyedOrStripped(s, c)
    requires BeingPruned(s, c) ==> !InBlock(s, c) && !Requests(step, c)
    ensures KeyedOrStripped(Apply(s, step), c)
  {
    if step.Prunes? {
      PruneKeepsKeys(s, c);
    } else {
      StepIsMove(s, step, c);
      OnlyPruneMovesOn(s, step);
      var move := MoveOf(s, step, c);
      if move.Some? {
        OtherMovesDoNotPop(s, step, c);
        if BeingPruned(s, c) {
          StrippedStays(c, KnownOf(s, c), move.value, s.threads.stasis.pop);
        } else {
          MovesKeepKeys(c, KnownOf(s, c), move.value);
        }
      }
    }
  }

  lemma OtherMovesDoNotPop(s: State, step: Step, c: CallId)
    requires Enabled(s, step) && !step.Prunes? && MoveOf(s, step, c).Some?
    ensures !MoveOf(s, step, c).value.Pops?
    ensures MoveOf(s, step, c).value.SendsFirst? ==> Requests(step, c)
  {
  }

  lemma {:induction false} UndisturbedIsKeyed(run: Run, n: nat, c: CallId)
    requires run.FromInitial() && n < |run.states| && Undisturbed(run, n, c)
    ensures KeyedOrStripped(run.states[n], c)
  {
    if n > 0 {
      UndisturbedIsKeyed(run, n - 1, c);
      EveryCallIsSound(run, n - 1, c);
      assert run.IsStep(n - 1);
      StepKeepsKeys(run.states[n - 1], run.steps[n - 1], c);
    }
  }

  // ---- Facts that stay ----

  datatype Fact =
    IsGone | IsClosed | IsBarred | IsAnswered(info: PushInfo) | IsHarmless | IsOver | IsGivenUp | IsAborted

  ghost predicate Is(fact: Fact, c: CallId, k: Known)
  {
    match fact
    case IsGone => Gone(k)
    case IsClosed => Closed(k)
    case IsBarred => Barred(k)
    case IsAnswered(info) => Answered(k, info)
    case IsHarmless => Harmless(k)
    case IsOver => Over(c, k)
    case IsGivenUp => GivenUp(k)
    case IsAborted => Aborted(k)
  }

  /** What a fact freezes of the trace. */
  predicate Frozen(fact: Fact, k: Known, k': Known)
  {
    && (fact.IsGone? || fact.IsAnswered? || fact.IsOver? ==> k'.pushes == k.pushes)
    && (fact.IsGone? || fact.IsClosed? ==> k'.legs == k.legs)
  }

  lemma MovesKeepFacts(c: CallId, k: Known, move: Move, fact: Fact)
    requires Base(c, k) && Is(fact, c, k) && CanMove(k.v, move)
    ensures Is(fact, c, After(c, k, move)) && Frozen(fact, k, After(c, k, move))
  {
    match fact
    case IsGone => GoneIsForever(c, k, move);
    case IsClosed => ClosedIsForever(c, k, move);
    case IsBarred => BarredIsForever(c, k, move);
    case IsAnswered(info) => AnsweredIsForever(c, k, move, info);
    case IsHarmless => HarmlessIsForever(c, k, move);
    case IsOver => OverIsForever(c, k, move);
    case IsGivenUp => GivenUpIsForever(c, k, move);
    case IsAborted => AbortedIsForever(c, k, move);
  }

  lemma {:induction false} FactsStay(run: Run, i: nat, j: nat, c: CallId, fact: Fact)
    requires run.Valid() && i <= j < |run.states| && Base(c, KnownAt(run, i, c)) && Is(fact, c, KnownAt(run, i, c))
    ensures Base(c, KnownAt(run, j, c)) && Is(fact, c, KnownAt(run, j, c))
        && Frozen(fact, KnownAt(run, i, c), KnownAt(run, j, c))
    decreases j
  {
    if i < j {
      FactsStay(run, i, j - 1, c, fact);
      OneStepKeepsBase(run, j - 1, c);
      OneStepIsMove(run, j - 1, c);
      var move := MoveOf(run.states[j - 1], run.steps[j - 1], c);
      if move.Some? {
        MovesKeepFacts(c, KnownAt(run, j - 1, c), move.value, fact);
      }
    }
  }

  // ---- PSTN legs ----

  /** At most one PSTN leg is ever originated for a call. */
  lemma AtMostOneLeg(run: Run, c: CallId)
    requires run.FromInitial()
    ensures var legs := Log(run.Last().history.trace, LegOf(c)); legs == Empty || legs.past == Empty
  {
    EveryCallIsSound(run, |run.steps|, c);
  }

  lemma CancelCloses(run: Run, i: nat, c: CallId)
    requires run.FromInitial() && i < |run.steps|
    requires IsArming(KnownAt(run, i, c).v.fallback) && KnownAt(run, i + 1, c).v.fallback == Some(FallbackCancelled)
    ensures Base(c, KnownAt(run, i + 1, c)) && Closed(KnownAt(run, i + 1, c)) && KnownAt(run, i + 1, c).legs == Empty
  {
    EveryCallIsSound(run, i, c);
    OneStepKeepsBase(run, i, c);
    OneStepIsMove(run, i, c);
    CancellingCloses(c, KnownAt(run, i, c), MoveOf(run.states[i], run.steps[i], c).value);
  }

  /** A step that takes the fallback of a call from Pending or Triggering to Cancelled is final: the run
      originates no leg for that call, before or after it. */
  lemma CancelIsFinal(run: Run, i: nat, c: CallId)
    requires run.FromInitial() && i < |run.steps|
    requires IsArming(Get(run.states[i].calls.fallbacks, c))
    requires Get(run.states[i + 1].calls.fallbacks, c) == Some(FallbackCancelled)
    ensures Log(run.Last().history.trace, LegOf(c)) == Empty
  {
    CancelCloses(run, i, c);
    FactsStay(run, i + 1, |run.steps|, c, IsClosed);
  }

  /** The timer thread reads a push that was Received or cancelled, or that is gone, or of a user who cannot be
      reached: no leg is originated for that call, before or after, and a fallback that was Triggering then can only
      become Cancelled, or be pruned. */
  lemma OverPushMeansNoLeg(run: Run, i: nat, j: nat, c: CallId, usable: bool)
    requires run.FromInitial() && i < |run.steps| && i < j < |run.states|
        && run.steps[i] == OnCall(c, ReadsPush(usable))
    requires !usable || c !in run.states[i].calls.incoming || run.states[i].calls.incoming[c].Terminal()
    ensures Log(run.states[j].history.trace, LegOf(c)) == Empty
    ensures Get(run.states[i].calls.fallbacks, c) == Some(Triggering) ==>
              var fallback := Get(run.states[j].calls.fallbacks, c);
              fallback.None? || fallback == Some(Triggering) || fallback == Some(FallbackCancelled)
  {
    EveryCallIsSound(run, i, c);
    OneStepKeepsBase(run, i, c);
    OneStepIsMove(run, i, c);
    ReadingGivesUp(c, KnownAt(run, i, c), usable);
    FactsStay(run, i + 1, j, c, IsGivenUp);
    if Get(run.states[i].calls.fallbacks, c) == Some(Triggering) {
      FactsStay(run, i + 1, j, c, IsAborted);
    }
  }

  /** A timer that fires when the lock of its call is gone originates no leg, ever. */
  lemma LocklessTimerStops(run: Run, i: nat, j: nat, c: CallId)
    requires run.FromInitial() && i < |run.steps| && i < j < |run.states|
    requires run.steps[i] == OnCall(c, Fires) && c !in run.states[i].calls.locks
    ensures Log(run.states[j].history.trace, LegOf(c)) == Empty
  {
    EveryCallIsSound(run, i, c);
    OneStepKeepsBase(run, i, c);
    OneStepIsMove(run, i, c);
    assert GivenUp(KnownAt(run, i + 1, c));
    FactsStay(run, i + 1, j, c, IsGivenUp);
  }

  // ---- Pushes ----

  /** As long as no two workers are in blocks about the call at once, its whole push history is empty, one push,
      or one push and then one cancellation of it. */
  lemma PushProtocol(run: Run, n: nat, c: CallId)
    requires run.FromInitial() && n < |run.states| && NeverOverlap(run, n, c)
    ensures var pushes := Log(run.states[n].history.trace, PushOf(c));
            || pushes == Empty
            || (exists info :: pushes == Then(Empty, PushSent(c, info)))
            || (exists info :: pushes == Then(Then(Empty, PushSent(c, info)), PushCancelSent(c, info)))
  {
    NeverOverlapIsOrderly(run, n, c);
  }

  /** Once a call is Received, no push is cancelled for it, ever, and nothing else is ever written for it. */
  lemma ReceivedIsNeverCancelled(run: Run, i: nat, j: nat, c: CallId)
    requires run.FromInitial() && i <= j < |run.states| && NeverOverlap(run, i, c)
    requires c in run.states[i].calls.incoming && run.states[i].calls.incoming[c].Received?
    ensures var incoming := run.states[j].calls.incoming;
            c in incoming ==> incoming[c] == run.states[i].calls.incoming[c]
    ensures NotCancelled(Log(run.states[j].history.trace, PushOf(c)))
  {
    EveryCallIsSound(run, i, c);
    NeverOverlapIsOrderly(run, i, c);
    var k := KnownAt(run, i, c);
    forall w | w in k.v.blocks ensures k.v.blocks[w].incoming.None? {
      assert BlockIsSound(c, k, w, k.v.blocks[w]) && EndIsSound(k, k.v.blocks[w]);
    }
    FactsStay(run, i, j, c, IsAnswered(run.states[i].calls.incoming[c].info));
  }

  /** A cancel or complete that lands between the two halves of the send: nothing is pushed and no leg is
      originated, ever. */
  lemma TerminalBeforeSendMeansNoPush(run: Run, i: nat, j: nat, c: CallId)
    requires run.FromInitial() && i <= j < |run.states|
    requires CallOf(run.states[i], c).send.Some?
    requires c in run.states[i].calls.incoming && run.states[i].calls.incoming[c].Terminal()
    ensures Log(run.states[j].history.trace, PushOf(c)) == Empty
    ensures Log(run.states[j].history.trace, LegOf(c)) == Empty
  {
    EveryCallIsSound(run, i, c);
    var k := KnownAt(run, i, c);
    FactsStay(run, i, j, c, IsBarred);
  }

  // ---- Dictionaries ----

  /** The dictionaries about a call agree: a fallback only with an incoming call, incoming call and ring time
      exactly with a lock, and a dialed leg only when the push is over. */
  predicate KeysAgree(s: State, c: CallId)
  {
    && (c in s.calls.fallbacks ==> c in s.calls.incoming)
    && (c in s.calls.incoming <==> c in s.calls.locks)
    && (c in s.calls.ringTime <==> c in s.calls.locks)
    && (HasLeg(Get(s.calls.fallbacks, c)) ==> c in s.calls.incoming && s.calls.incoming[c].Terminal())
  }

  /** As long as nobody is in a block about a call, and nobody requests its push, while it is being pruned: at
      the end of every prune the keys of the fallbacks are keys of the incoming calls, which are the keys of the
      locks, so that the assertion in `_cancel_pstn_fallback` holds; and during a prune this holds of all other
      calls. */
  lemma JointKeys(run: Run, n: nat)
    requires run.FromInitial() && n < |run.states| && forall c :: Undisturbed(run, n, c)
    ensures forall c :: !BeingPruned(run.states[n], c) ==> KeysAgree(run.states[n], c)
    ensures var calls := run.states[n].calls;
            !run.states[n].threads.stasis.Popping? ==>
            && calls.fallbacks.Keys <= calls.incoming.Keys == calls.locks == calls.ringTime.Keys
            && (forall c ::
                  c in calls.fallbacks && (calls.fallbacks[c].Dialing? || calls.fallbacks[c].DialAnswered?) ==>
                  c in calls.incoming && calls.incoming[c].Terminal())
  {
    var s := run.states[n];
    forall c | !BeingPruned(s, c) ensures KeysAgree(s, c) {
      assert Undisturbed(run, n, c);
      UndisturbedIsKeyed(run, n, c);
    }
    if !s.threads.stasis.Popping? {
      AllKeysAgree(s);
    }
  }

  lemma AllKeysAgree(s: State)
    requires forall c :: KeysAgree(s, c)
    ensures s.calls.fallbacks.Keys <= s.calls.incoming.Keys == s.calls.locks == s.calls.ringTime.Keys
    ensures forall c ::
              c in s.calls.fallbacks && (s.calls.fallbacks[c].Dialing? || s.calls.fallbacks[c].DialAnswered?) ==>
              c in s.calls.incoming && s.calls.incoming[c].Terminal()
  {
    forall c
      ensures c in s.calls.fallbacks ==> c in s.calls.incoming
      ensures c in s.calls.incoming <==> c in s.calls.locks
      ensures c in s.calls.ringTime <==> c in s.calls.locks
      ensures HasLeg(Get(s.calls.fallbacks, c)) ==> c in s.calls.incoming && s.calls.incoming[c].Terminal()
    {
      assert KeysAgree(s, c);
    }
  }

  /** The call was requested, and no dictionary has an entry for it. */
  predicate IsPruned(s: State, c: CallId)
  {
    && CallOf(s, c).requested
    && c !in s.calls.incoming && c !in s.calls.fallbacks && c !in s.calls.locks && c !in s.calls.ringTime
  }

  /** A call that is pruned, with nobody in a block about it, stays pruned: nothing in flight recreates an
      entry for it, sends a push for it or originates a leg for it. */
  lemma PrunedStaysPruned(run: Run, i: nat, j: nat, c: CallId)
    requires run.FromInitial() && i <= j < |run.states|
    requires IsPruned(run.states[i], c) && !InBlock(run.states[i], c)
    ensures IsPruned(run.states[j], c)
    ensures Log(run.states[j].history.trace, PushOf(c)) == Log(run.states[i].history.trace, PushOf(c))
    ensures Log(run.states[j].history.trace, LegOf(c)) == Log(run.states[i].history.trace, LegOf(c))
  {
    EveryCallIsSound(run, i, c);
    FactsStay(run, i, j, c, IsGone);
  }

  /** Why a push is requested once per origin call: whatever the state, a request that is served without
      interruption pushes again, even for a call that was Received. */
  lemma SecondRequestPushesAgain(c: CallId, v: Call, info: PushInfo, ringTime: int, eligible: bool)
    ensures EnterSend(c, SendFirst(v, info, ringTime), eligible).effect == Some(PushSent(c, info))
  {
  }
}
