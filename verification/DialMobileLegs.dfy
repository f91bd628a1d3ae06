/** What becomes of an originated PSTN leg.  A leg can be lost in two ways, and exactly in these: the second half
    of a push arms the fallback while the stasis thread is already tearing the call down; or a fallback that was
    armed behind a prune finds the bridge of a later dial, when the call has no lock any more. */
module DialMobileLegs {
  import opened Wrappers
  import opened Identifiers
  import opened DialMobileModel
  import opened DialMobileCalls
  import opened DialMobileSteps
  import opened DialMobileRuns
  import opened DialMobilePrunes
  import opened DialMobileBridges

  /** The call that the stasis thread is busy with. */
  function Busy(s: State): Option<CallId>
  {
    match s.threads.stasis
    case Joining(_, _, call) => call
    case Stopping(_, _, call) => call
    case Refusing(_, call) => call
    case Pruning(b, _) => Get(s.bridges.origin, b)
    case Popping(_, c, _, _) => Some(c)
    case Removing(todo, StopPush) => if todo != [] then Get(s.bridges.origin, todo[0]) else None
    case _ => None
  }

  /** The call that it is tearing down: past its fallback, not yet pruned.  A join without a dialer is late and
      tears nothing down. */
  function Handling(s: State): Option<CallId>
  {
    if s.threads.stasis.Joining? && s.threads.stasis.bridge !in s.bridges.dialers then None else Busy(s)
  }

  /** The push of a call that is being torn down has not been sent yet, and its lock and its bridge are there. */
  predicate Hazard(s: State, c: CallId)
  {
    var v := CallOf(s, c);
    && Handling(s) == Some(c) && v.send.Some? && v.locked
    && v.incoming.Some? && v.incoming.value.Pending? && c in s.bridges.byOrigin
  }

  /** Somebody other than the timer thread is going to write a fallback. */
  predicate Overwrites(v: Call, w: Worker) { w in v.blocks && !w.Timer? && v.blocks[w].fallback.Some? }

  /** The fallback of a call without a lock is triggered, and nobody is going to write it. */
  predicate IsLate(v: Call)
  {
    v.requested && !v.locked && v.fallback == Some(Triggering) && forall w :: w in v.blocks ==> !Overwrites(v, w)
  }

  /** The second half of a push arms the fallback in the first case, the timer thread finds a bridge in the second. */
  predicate Hazardous(s: State, step: Step)
  {
    step.OnCall? &&
      match step.move
      case Sends(true) => Hazard(s, step.call)
      case FindsBridge(Some(_)) => IsLate(CallOf(s, step.call))
      case _ => false
  }

  // ---- One call ----

  predicate RingsOrArms(f: Option<PstnFallback>) { IsArming(f) || (f.Some? && f.value.Dialing?) }

  /** The fallback neither rings nor can come to ring, once the stasis thread has left its block. */
  predicate IsQuiet(v: Call)
  {
    && (!RingsOrArms(v.fallback) || (Stasis in v.blocks && v.blocks[Stasis].fallback.Some?))
    && (Sender in v.blocks ==> v.blocks[Sender].fallback.None?)
    && (Timer in v.blocks ==> !RingsOrArms(v.blocks[Timer].fallback))
  }

  /** The fallback may be armed, but its thread has not found a bridge. */
  predicate IsCut(k: Known)
  {
    && k.legs == Empty && (k.v.timer.Some? ==> !k.v.timer.value.Commit? && !k.v.timer.value.LegUp?)
    && (k.v.fallback.Some? ==> !k.v.fallback.value.Dialing?)
    && (Timer in k.v.blocks ==> k.v.blocks[Timer].fallback.Some? && !k.v.blocks[Timer].fallback.value.Dialing?)
  }

  /** Without a lock, and what is still in flight originates no leg. */
  ghost predicate IsDead(v: Call)
  {
    && v.requested && !v.locked && v.timer != Some(LegUp)
    && (v.fallback.Some? ==> !v.fallback.value.Dialing?)
    && (Timer in v.blocks ==> v.blocks[Timer].fallback.Some? && !v.blocks[Timer].fallback.value.Dialing?)
    && (v.timer.Some? && v.timer.value.Commit? && v.fallback == Some(Triggering) ==> exists w :: Overwrites(v, w))
  }

  /** No leg of the call can come up before it is pruned; `reachable` says that its bridge can be found. */
  ghost predicate IsCalm(k: Known, reachable: bool)
  {
    !k.v.requested || IsDead(k.v) || IsQuiet(k.v) || (!reachable && IsCut(k))
  }

  lemma DeadStays(c: CallId, k: Known, move: Move)
    requires Base(c, k) && CanMove(k.v, move) && IsDead(k.v) && !(move.FindsBridge? && move.found.Some? && IsLate(k.v))
    ensures IsDead(After(c, k, move).v)
  {
    if move.Leaves? {
      assert BlockIsSound(c, k, move.worker, k.v.blocks[move.worker]);
    }
    if Timer in k.v.blocks {
      assert BlockIsSound(c, k, Timer, k.v.blocks[Timer]);
    }
    var v' := After(c, k, move).v;
    if v'.timer.Some? && v'.timer.value.Commit? && v'.fallback == Some(Triggering) {
      OverwriterStays(c, k, move);
    }
  }

  /** Whoever is going to overwrite a triggered fallback holds the lock, so nothing is originated before it writes. */
  lemma OverwriterStays(c: CallId, k: Known, move: Move)
    requires Base(c, k) && CanMove(k.v, move) && IsDead(k.v) && !(move.FindsBridge? && move.found.Some? && IsLate(k.v))
    requires var v' := After(c, k, move).v; v'.timer.Some? && v'.timer.value.Commit? && v'.fallback == Some(Triggering)
    ensures exists w :: Overwrites(After(c, k, move).v, w)
  {
    if move.Leaves? {
      assert BlockIsSound(c, k, move.worker, k.v.blocks[move.worker]);
    }
    assert k.v.fallback == Some(Triggering);
    var w := SomeOverwriter(k.v, move);
    HolderStays(c, k, move, w);
  }

  lemma SomeOverwriter(v: Call, move: Move) returns (w: Worker)
    requires IsDead(v) && v.fallback == Some(Triggering) && CanMove(v, move)
    requires (v.timer.Some? && v.timer.value.Commit?) || (move.FindsBridge? && !IsLate(v))
    ensures Overwrites(v, w)
  {
    w :| Overwrites(v, w);
  }

  lemma HolderStays(c: CallId, k: Known, move: Move, w: Worker)
    requires Base(c, k) && CanMove(k.v, move) && Overwrites(k.v, w)
    requires var v' := After(c, k, move).v; v'.timer.Some? && v'.timer.value.Commit? && v'.fallback == Some(Triggering)
    ensures Overwrites(After(c, k, move).v, w)
  {
    assert BlockIsSound(c, k, w, k.v.blocks[w]);
  }

  lemma QuietStays(c: CallId, k: Known, move: Move)
    requires Base(c, k) && CanMove(k.v, move) && IsQuiet(k.v)
    requires move == Sends(true) ==> !(k.v.incoming.Some? && k.v.incoming.value.Pending?)
    ensures IsQuiet(After(c, k, move).v)
  {
    if move.Leaves? {
      LeavingStaysQuiet(c, k, move.worker);
    } else if Timer in k.v.blocks {
      assert BlockIsSound(c, k, Timer, k.v.blocks[Timer]) && Holds(k.v, Timer);
    }
  }

  lemma LeavingStaysQuiet(c: CallId, k: Known, w: Worker)
    requires Base(c, k) && CanMove(k.v, Leaves(w)) && IsQuiet(k.v)
    ensures IsQuiet(After(c, k, Leaves(w)).v)
  {
    assert BlockIsSound(c, k, w, k.v.blocks[w]);
    if Timer in k.v.blocks {
      assert BlockIsSound(c, k, Timer, k.v.blocks[Timer]) && Holds(k.v, Timer);
    }
    assert Holds(k.v, Stasis) && w != Stasis ==> !Holds(k.v, w);
  }

  lemma ArmedBecomesCut(c: CallId, k: Known)
    requires Base(c, k) && CanMove(k.v, Sends(true)) && IsQuiet(k.v) && k.v.incoming.Some?
        && k.v.incoming.value.Pending?
    ensures IsCut(After(c, k, Sends(true)))
  {
  }

  lemma CutStays(c: CallId, k: Known, move: Move)
    requires Base(c, k) && CanMove(k.v, move) && IsCut(k) && !(move.FindsBridge? && move.found.Some?)
    ensures IsCut(After(c, k, move))
  {
    if move.Leaves? {
      LeavingStaysCut(c, k, move.worker);
    } else if Timer in k.v.blocks {
      assert BlockIsSound(c, k, Timer, k.v.blocks[Timer]);
    }
  }

  lemma LeavingStaysCut(c: CallId, k: Known, w: Worker)
    requires Base(c, k) && CanMove(k.v, Leaves(w)) && IsCut(k)
    ensures IsCut(After(c, k, Leaves(w)))
  {
    assert BlockIsSound(c, k, w, k.v.blocks[w]);
    if Timer in k.v.blocks {
      assert BlockIsSound(c, k, Timer, k.v.blocks[Timer]);
    }
  }

  lemma CalmStays(c: CallId, k: Known, move: Move, reachable: bool)
    requires Base(c, k) && CanMove(k.v, move) && IsCalm(k, reachable) && (k.v.requested && !k.v.locked ==> IsDead(k.v))
    requires move == Sends(true) && k.v.locked && k.v.incoming.Some? && k.v.incoming.value.Pending? ==> !reachable
    requires move.FindsBridge? && move.found.Some? ==> reachable && !IsLate(k.v)
    ensures IsCalm(After(c, k, move), reachable)
  {
    if !k.v.requested {
      NewIsCalm(c, k, move);
    } else if IsDead(k.v) {
      DeadStays(c, k, move);
    } else if IsQuiet(k.v) {
      if move == Sends(true) && k.v.incoming.Some? && k.v.incoming.value.Pending? {
        ArmedBecomesCut(c, k);
      } else {
        QuietStays(c, k, move);
      }
    } else {
      CutStays(c, k, move);
    }
  }

  lemma NewIsCalm(c: CallId, k: Known, move: Move)
    requires Base(c, k) && CanMove(k.v, move) && !k.v.requested
    ensures !After(c, k, move).v.requested || IsQuiet(After(c, k, move).v)
  {
  }

  /** The first move of a teardown leaves a call calm, whatever it was before. */
  lemma TeardownCalms(c: CallId, k: Known, move: Move)
    requires Base(c, k) && CanMove(k.v, move) && (move.Joins? || move == CancelsFallback(Stasis))
    requires k.v.requested && !k.v.locked ==> IsDead(k.v)
    ensures IsCalm(After(c, k, move), true)
  {
    if !k.v.requested {
      NewIsCalm(c, k, move);
    } else if !k.v.locked {
      DeadStays(c, k, move);
    } else {
      assert forall w :: w in k.v.blocks ==> Holds(k.v, w);
    }
  }

  /** Popping the lock of a calm call leaves nothing that can originate a leg. */
  lemma CalmPopKills(c: CallId, k: Known, reachable: bool)
    requires Base(c, k) && IsCalm(k, reachable) && k.v.requested && Stasis !in k.v.blocks
    ensures IsDead(After(c, k, Pops(OfLock)).v)
  {
    if Timer in k.v.blocks {
      assert BlockIsSound(c, k, Timer, k.v.blocks[Timer]);
    }
  }

  lemma CalmHasNoLeg(c: CallId, k: Known, reachable: bool)
    requires Base(c, k) && IsCalm(k, reachable) && Stasis !in k.v.blocks
    ensures !(k.v.fallback.Some? && k.v.fallback.value.Dialing?)
    ensures Timer in k.v.blocks ==> k.v.blocks[Timer].fallback.Some? && !k.v.blocks[Timer].fallback.value.Dialing?
  {
    if Timer in k.v.blocks {
      assert BlockIsSound(c, k, Timer, k.v.blocks[Timer]);
    }
  }

  // ---- Keeping track of the leg ----

  /** The leg is the one that the fallback is dialing, or is going to dial, or is accounted for; and whoever is
      going to overwrite it has accounted for it. */
  ghost predicate LegIsTracked(trace: Trace, c: CallId, k: Known)
  {
    k.legs.Then? && k.legs.last.LegOriginated? ==>
      var leg := k.legs.last.leg;
      && (k.v.fallback == Some(Dialing(leg)) || WillDial(k.v, leg) || Settled(trace, c, leg))
      && (forall w :: Overwrites(k.v, w) && k.v.fallback == Some(Dialing(leg)) ==> Settled(trace, c, leg))
  }

  predicate WillDial(v: Call, leg: ChannelId) { Timer in v.blocks && v.blocks[Timer].fallback == Some(Dialing(leg)) }

  /** The trace with the effect of a move. */
  function Traced(trace: Trace, effect: Option<Effect>): Trace
  {
    if effect.Some? then Then(trace, effect.value) else trace
  }

  lemma MovesKeepTrack(trace: Trace, c: CallId, k: Known, move: Move)
    requires Base(c, k) && CanMove(k.v, move) && LegIsTracked(trace, c, k)
    requires move.Marks? ==> trace.Has(ReportedGone(move.channel))
    requires move == Pops(OfFallback) ==> !(k.v.fallback.Some? && k.v.fallback.value.Dialing?)
    ensures LegIsTracked(Traced(trace, Make(c, k.v, move).effect), c, After(c, k, move))
  {
    var k' := After(c, k, move);
    if k'.legs.Then? && k'.legs.last.LegOriginated? {
      TrackedPlace(trace, c, k, move);
      forall w | Overwrites(k'.v, w) && k'.v.fallback == Some(Dialing(k'.legs.last.leg))
        ensures Settled(Traced(trace, Make(c, k.v, move).effect), c, k'.legs.last.leg)
      {
        TrackedOverwrite(trace, c, k, move, w);
      }
    }
  }

  lemma TrackedPlace(trace: Trace, c: CallId, k: Known, move: Move)
    requires Base(c, k) && CanMove(k.v, move) && LegIsTracked(trace, c, k)
    requires move.Marks? ==> trace.Has(ReportedGone(move.channel))
    requires move == Pops(OfFallback) ==> !(k.v.fallback.Some? && k.v.fallback.value.Dialing?)
    requires After(c, k, move).legs.Then? && After(c, k, move).legs.last.LegOriginated?
    ensures var k', trace' := After(c, k, move), Traced(trace, Make(c, k.v, move).effect);
            var leg := k'.legs.last.leg;
            k'.v.fallback == Some(Dialing(leg)) || WillDial(k'.v, leg) || Settled(trace', c, leg)
  {
    if move.Leaves? {
      LeavingTracks(trace, c, k, move.worker);
    } else if Timer in k.v.blocks {
      assert BlockIsSound(c, k, Timer, k.v.blocks[Timer]);
    }
  }

  lemma LeavingTracks(trace: Trace, c: CallId, k: Known, w: Worker)
    requires Base(c, k) && CanMove(k.v, Leaves(w)) && LegIsTracked(trace, c, k)
    requires k.legs.Then? && k.legs.last.LegOriginated?
    ensures var k', leg := After(c, k, Leaves(w)), k.legs.last.leg;
            k'.v.fallback == Some(Dialing(leg)) || WillDial(k'.v, leg) || Settled(trace, c, leg)
  {
    assert BlockIsSound(c, k, w, k.v.blocks[w]);
    assert w != Timer && k.v.blocks[w].fallback.Some? ==> Overwrites(k.v, w);
    if Timer in k.v.blocks {
      assert BlockIsSound(c, k, Timer, k.v.blocks[Timer]);
    }
  }

  lemma TrackedOverwrite(trace: Trace, c: CallId, k: Known, move: Move, w: Worker)
    requires Base(c, k) && CanMove(k.v, move) && LegIsTracked(trace, c, k)
    requires After(c, k, move).legs.Then? && After(c, k, move).legs.last.LegOriginated?
    requires Overwrites(After(c, k, move).v, w)
        && After(c, k, move).v.fallback == Some(Dialing(After(c, k, move).legs.last.leg))
    ensures Settled(Traced(trace, Make(c, k.v, move).effect), c, After(c, k, move).legs.last.leg)
  {
    if move.Leaves? {
      LeftOverwrite(trace, c, k, move.worker, w);
    } else {
      FallbackStayed(c, k, move);
      if w in k.v.blocks {
        assert BlockIsSound(c, k, w, k.v.blocks[w]);
        assert Overwrites(k.v, w);
      }
    }
  }

  /** Only a block that is left makes a fallback dial; the leg was originated before. */
  lemma FallbackStayed(c: CallId, k: Known, move: Move)
    requires Base(c, k) && CanMove(k.v, move) && !move.Leaves?
    requires After(c, k, move).v.fallback.Some? && After(c, k, move).v.fallback.value.Dialing?
    ensures k.v.fallback == After(c, k, move).v.fallback && k.legs == After(c, k, move).legs
    ensures k.v.timer == Some(Finished) && Timer !in k.v.blocks
  {
  }

  lemma LeftOverwrite(trace: Trace, c: CallId, k: Known, left: Worker, w: Worker)
    requires Base(c, k) && CanMove(k.v, Leaves(left)) && LegIsTracked(trace, c, k)
    requires k.legs.Then? && k.legs.last.LegOriginated? && Overwrites(After(c, k, Leaves(left)).v, w)
    requires After(c, k, Leaves(left)).v.fallback == Some(Dialing(k.legs.last.leg))
    ensures Settled(trace, c, k.legs.last.leg)
  {
    assert BlockIsSound(c, k, left, k.v.blocks[left]) && BlockIsSound(c, k, w, k.v.blocks[w]);
    assert Overwrites(k.v, w) && Holds(k.v, w) && left != w ==> !Holds(k.v, left);
  }

  // ---- All calls ----

  ghost predicate Grows(t: Trace, t': Trace)
  {
    forall e :: t.Has(e) ==> t'.Has(e)
  }

  ghost predicate SafeCall(s: State, c: CallId)
  {
    var k := KnownOf(s, c);
    && LegIsTracked(s.history.trace, c, k)
    && (k.v.requested && !k.v.locked ==> IsDead(k.v))
    && (Handling(s) == Some(c) ==> IsCalm(k, c in s.bridges.byOrigin))
  }

  /** Whoever is being marked was reported gone. */
  predicate MarkingIsReported(s: State)
  {
    s.threads.stasis.Marking? ==> s.history.trace.Has(ReportedGone(s.threads.stasis.channel))
  }

  ghost predicate Safe(s: State)
  {
    MarkingIsReported(s) && forall c :: SafeCall(s, c)
  }

  /** What is proved elsewhere of every state of a run. */
  ghost predicate Regular(s: State)
  {
    Coherent(s) && StasisIsWhere(s) && BlockFitsPc(s) && forall c :: Base(c, KnownOf(s, c))
  }

  lemma {:induction false} RefusalsGrow(trace: Trace, dialers: map<BridgeId, Dialer>, channel: ChannelId,
      order: seq<BridgeId>)
    requires forall b :: b in order ==> b in dialers
    ensures Grows(trace, RefuseCallers(trace, dialers, channel, order))
  {
    if order != [] {
      RefusalsGrow(trace, dialers, channel, order[..|order| - 1]);
    }
  }

  lemma TraceGrows(s: State, step: Step)
    requires Enabled(s, step)
    ensures Grows(s.history.trace, Apply(s, step).history.trace)
  {
    if step.CollectsGone? {
      RefusalsGrow(s.history.trace, s.bridges.dialers, s.threads.stasis.channel, step.order);
    }
  }

  /** The trace grows by the effect of the move. */
  lemma MoveTraces(s: State, step: Step, c: CallId)
    requires Enabled(s, step) && MoveOf(s, step, c).Some? && CanMove(CallOf(s, c), MoveOf(s, step, c).value)
    ensures var move := MoveOf(s, step, c).value;
            Apply(s, step).history.trace == Traced(s.history.trace, Make(c, CallOf(s, c), move).effect)
  {
  }

  lemma TrackGrows(trace: Trace, trace': Trace, c: CallId, k: Known)
    requires LegIsTracked(trace, c, k) && Grows(trace, trace')
    ensures LegIsTracked(trace', c, k)
  {
    forall leg | Settled(trace, c, leg) ensures Settled(trace', c, leg) {
    }
  }

  /** The stasis thread goes on with the same call, or is done with it; nobody makes its bridge known again. */
  lemma HandlingGoesOn(s: State, step: Step, c: CallId)
    requires Coherent(s) && Enabled(s, step) && !step.StartsJoin? && !step.StopsFallback?
    ensures var s' := Apply(s, step);
            Handling(s') == Some(c) ==> Handling(s) == Some(c) && (c in s'.bridges.byOrigin ==> c in s.bridges.byOrigin)
  {
    if step.OnCall? {
      MoveKeepsBridges(s, step.call, step.move);
    } else if step.StasisLeaves? {
      MoveKeepsBridges(s, s.threads.stasisBlock.value, Leaves(Stasis));
    } else if step.Prunes? {
      PruneGoesOn(s, c);
    } else {
      TeardownGoesOnToo(s, step, c);
    }
  }

  lemma PruneGoesOn(s: State, c: CallId)
    requires Enabled(s, Prunes)
    ensures var s' := Apply(s, Prunes);
            Handling(s') == Some(c) ==> Handling(s) == Some(c) && (c in s'.bridges.byOrigin ==> c in s.bridges.byOrigin)
  {
  }

  lemma TeardownGoesOnToo(s: State, step: Step, c: CallId)
    requires Coherent(s) && Enabled(s, step) && !step.StartsJoin? && !step.StopsFallback?
    requires !step.OnCall? && !step.StasisLeaves? && !step.Prunes?
    ensures var s' := Apply(s, step);
            Handling(s') == Some(c) ==> Handling(s) == Some(c) && (c in s'.bridges.byOrigin ==> c in s.bridges.byOrigin)
  {
    if step.RefusesPush? {
      StasisMoveKeepsBridges(s, s.threads.stasis.call, CancelsPush(Stasis));
    } else if step.StopsPush? {
      StasisMoveKeepsBridges(s, Todo(s), CancelsPush(Stasis));
    }
  }

  /** A teardown starts with a move on the call it is about. */
  lemma TeardownStarts(s: State, step: Step, c: CallId)
    requires Coherent(s) && Enabled(s, step) && (step.StartsJoin? || step.StopsFallback?)
    ensures Handling(Apply(s, step)) == Some(c) ==>
            MoveOf(s, step, c) == Some(if step.StartsJoin? then Joins(step.channel) else CancelsFallback(Stasis))
  {
    if step.StartsJoin? {
      StasisMoveKeepsBridges(s, Get(s.bridges.origin, step.bridge), Joins(step.channel));
    } else if !RemovalFails(s, s.threads.stasis.todo[0]) {
      StasisMoveKeepsBridges(s, Todo(s), CancelsFallback(Stasis));
    }
  }

  /** Only a call that is being torn down is pruned, by the stasis thread outside its blocks. */
  lemma PopsWhatItHandles(s: State, step: Step, c: CallId)
    requires Regular(s) && Enabled(s, step) && MoveOf(s, step, c).Some? && MoveOf(s, step, c).value.Pops?
    ensures Handling(s) == Some(c) && Stasis !in CallOf(s, c).blocks && step.Prunes?
  {
    assert !Concurrent(s, c, MoveOf(s, step, c).value);
  }

  lemma CallStaysSafe(s: State, step: Step, c: CallId)
    requires Regular(s) && Safe(s) && Enabled(s, step) && MoveOf(s, step, c).None?
    ensures SafeCall(Apply(s, step), c)
  {
    StepIsMove(s, step, c);
    TraceGrows(s, step);
    assert SafeCall(s, c);
    TrackGrows(s.history.trace, Apply(s, step).history.trace, c, KnownOf(s, c));
    if step.StartsJoin? || step.StopsFallback? {
      TeardownStarts(s, step, c);
    } else {
      HandlingGoesOn(s, step, c);
      if Handling(Apply(s, step)) == Some(c) && IsCalm(KnownOf(s, c), true) {
        CalmIsMonotone(KnownOf(s, c), c in Apply(s, step).bridges.byOrigin);
      }
    }
  }

  lemma MovedStaysCalm(s: State, step: Step, c: CallId)
    requires Coherent(s) && Base(c, KnownOf(s, c)) && SafeCall(s, c) && Enabled(s, step) && !Hazardous(s, step)
    requires MoveOf(s, step, c).Some? && CanMove(CallOf(s, c), MoveOf(s, step, c).value)
    ensures Handling(Apply(s, step)) == Some(c) ==>
              IsCalm(After(c, KnownOf(s, c), MoveOf(s, step, c).value), c in Apply(s, step).bridges.byOrigin)
  {
    var k, s', move := KnownOf(s, c), Apply(s, step), MoveOf(s, step, c).value;
    if step.StartsJoin? || step.StopsFallback? {
      TeardownStarts(s, step, c);
      TeardownCalms(c, k, move);
      CalmIsMonotone(After(c, k, move), c in s'.bridges.byOrigin);
    } else {
      HandlingGoesOn(s, step, c);
      if Handling(s') == Some(c) {
        HandledMoveIsHarmless(s, step, c);
        CalmStays(c, k, move, c in s.bridges.byOrigin);
        if IsCalm(After(c, k, move), true) {
          CalmIsMonotone(After(c, k, move), c in s'.bridges.byOrigin);
        }
      }
    }
  }

  /** What a step that is not hazardous may do to a call that is being torn down. */
  lemma HandledMoveIsHarmless(s: State, step: Step, c: CallId)
    requires Enabled(s, step) && !Hazardous(s, step) && Handling(s) == Some(c) && MoveOf(s, step, c).Some?
    requires CanMove(CallOf(s, c), MoveOf(s, step, c).value)
    ensures var move, v := MoveOf(s, step, c).value, CallOf(s, c);
            && (move == Sends(true) && v.locked && v.incoming.Some? && v.incoming.value.Pending? ==>
                  c !in s.bridges.byOrigin)
            && (move.FindsBridge? && move.found.Some? ==> c in s.bridges.byOrigin && !IsLate(v))
  {
  }

  lemma MovedStaysSafe(s: State, step: Step, c: CallId)
    requires Regular(s) && Safe(s) && Enabled(s, step) && !Hazardous(s, step) && MoveOf(s, step, c).Some?
    ensures SafeCall(Apply(s, step), c)
  {
    var k, move := KnownOf(s, c), MoveOf(s, step, c).value;
    StepIsMove(s, step, c);
    MoveTraces(s, step, c);
    assert SafeCall(s, c) && Base(c, k);
    if move.Pops? {
      PopsWhatItHandles(s, step, c);
      CalmHasNoLeg(c, k, c in s.bridges.byOrigin);
    }
    MovesKeepTrack(s.history.trace, c, k, move);
    MovedStaysDead(s, step, c);
    MovedStaysCalm(s, step, c);
  }

  lemma MovedStaysDead(s: State, step: Step, c: CallId)
    requires Regular(s) && SafeCall(s, c) && Base(c, KnownOf(s, c)) && Enabled(s, step) && !Hazardous(s, step)
    requires MoveOf(s, step, c).Some? && CanMove(CallOf(s, c), MoveOf(s, step, c).value)
    ensures var v' := After(c, KnownOf(s, c), MoveOf(s, step, c).value).v;
            v'.requested && !v'.locked ==> IsDead(v')
  {
    var k, move := KnownOf(s, c), MoveOf(s, step, c).value;
    if k.v.requested && !k.v.locked {
      assert move.FindsBridge? ==> step == OnCall(c, move);
      DeadStays(c, k, move);
    } else if move == Pops(OfLock) && k.v.requested {
      PopsWhatItHandles(s, step, c);
      CalmPopKills(c, k, c in s.bridges.byOrigin);
    } else {
      OnlyPopsUnlock(c, k, move);
    }
  }

  lemma OnlyPopsUnlock(c: CallId, k: Known, move: Move)
    requires Base(c, k) && CanMove(k.v, move) && (move == Pops(OfLock) ==> !k.v.requested)
    ensures k.v.locked ==> After(c, k, move).v.locked
    ensures !k.v.requested && After(c, k, move).v.requested ==> After(c, k, move).v.locked
  {
  }

  lemma CalmIsMonotone(k: Known, reachable: bool)
    requires IsCalm(k, true)
    ensures IsCalm(k, reachable)
  {
  }

  lemma MarkingStaysReported(s: State, step: Step)
    requires MarkingIsReported(s) && Enabled(s, step)
    ensures MarkingIsReported(Apply(s, step))
  {
    TraceGrows(s, step);
    if step.OnCall? {
      MoveKeepsBridges(s, step.call, step.move);
    } else if step.StasisLeaves? {
      MoveKeepsBridges(s, s.threads.stasisBlock.value, Leaves(Stasis));
    }
  }

  /** Every step that is not hazardous keeps every call safe. */
  lemma StepKeepsSafe(s: State, step: Step)
    requires Regular(s) && Safe(s) && Enabled(s, step) && !Hazardous(s, step)
    ensures Safe(Apply(s, step))
  {
    forall c ensures SafeCall(Apply(s, step), c) {
      if MoveOf(s, step, c).None? {
        CallStaysSafe(s, step, c);
      } else {
        MovedStaysSafe(s, step, c);
      }
    }
    MarkingStaysReported(s, step);
  }

  // ---- Runs ----

  ghost predicate NoHazard(run: Run)
    requires run.Valid()
  {
    forall i :: 0 <= i < |run.steps| ==> !Hazardous(run.states[i], run.steps[i])
  }

  lemma RunIsRegular(run: Run, i: nat)
    requires run.FromInitial() && i < |run.states|
    ensures Regular(run.states[i])
  {
    RunIsCoherent(run, i);
    StasisIsTracked(run, i);
    var s := run.states[i];
    forall c ensures Base(c, KnownOf(s, c)) {
      EveryCallIsSound(run, i, c);
    }
  }

  lemma StepKeepsRegular(s: State, step: Step)
    requires Regular(s) && Enabled(s, step)
    ensures Regular(Apply(s, step))
  {
    StepIsCoherent(s, step);
    StepKeepsStasis(s, step);
    StepFitsPc(s, step);
    forall c ensures Base(c, KnownOf(Apply(s, step), c)) {
      assert Base(c, KnownOf(s, c));
      StepIsMove(s, step, c);
      if MoveOf(s, step, c).Some? {
        MovesKeepBase(c, KnownOf(s, c), MoveOf(s, step, c).value);
      }
    }
  }

  lemma {:induction false} SafeRunStaysSafe(run: Run, i: nat)
    requires run.Valid() && i < |run.states| && NoHazard(run) && Regular(run.states[0]) && Safe(run.states[0])
    ensures Regular(run.states[i]) && Safe(run.states[i])
  {
    if i > 0 {
      SafeRunStaysSafe(run, i - 1);
      assert run.IsStep(i - 1) && !Hazardous(run.states[i - 1], run.steps[i - 1]);
      StepKeepsSafe(run.states[i - 1], run.steps[i - 1]);
      StepKeepsRegular(run.states[i - 1], run.steps[i - 1]);
    }
  }

  lemma InitialIsSafe(run: Run)
    requires run.FromInitial()
    ensures Regular(run.states[0]) && Safe(run.states[0])
  {
    RunIsRegular(run, 0);
    forall c ensures SafeCall(Initial, c) {
    }
  }

  lemma HasMeansLog(trace: Trace, e: Effect, topic: Topic)
    requires trace.Has(e) && About(e, topic)
    ensures Log(trace, topic).Has(e)
  {
  }

  /** The leg is settled, or it is the one that the fallback is dialing or is about to dial, and the call still
      has its lock, so that a cancellation hangs it up. */
  predicate Accounted(s: State, c: CallId, leg: ChannelId)
  {
    || Settled(s.history.trace, c, leg)
    || (c in s.calls.locks && (Get(s.calls.fallbacks, c) == Some(Dialing(leg)) || WillDial(CallOf(s, c), leg)))
  }

  /** A leg was originated for the call, and nobody is going to hang it up. */
  predicate IsLost(s: State, c: CallId, leg: ChannelId)
  {
    IsLeg(c, Log(s.history.trace, LegOf(c)), leg) && !Accounted(s, c, leg)
  }

  /** In every state of a run without a hazardous step, a PSTN leg that was originated for a call is accounted for:
      it asked to join its bridge itself, was hung up by its own channel id, or is known to be gone; or the
      fallback is dialing it, or about to, and the call has its lock.  So no leg is lost by a prune: once the lock
      is popped the leg is settled. */
  lemma NoLegIsLost(run: Run, i: nat, c: CallId, leg: ChannelId, b: BridgeId)
    requires run.FromInitial() && i < |run.states| && NoHazard(run)
    requires run.states[i].history.trace.Has(LegOriginated(c, leg, b))
    ensures Accounted(run.states[i], c, leg)
    ensures c !in run.states[i].calls.locks ==> Settled(run.states[i].history.trace, c, leg)
  {
    var s := run.states[i];
    InitialIsSafe(run);
    SafeRunStaysSafe(run, i);
    HasMeansLog(s.history.trace, LegOriginated(c, leg, b), LegOf(c));
    assert SafeCall(s, c) && Base(c, KnownOf(s, c));
  }

  // ---- Exactly when a leg can be lost ----

  /** A run from here to there without a hazardous step. */
  ghost predicate LeadsSafely(s: State, s': State)
  {
    exists run: Run :: run.Valid() && run.states[0] == s && run.Last() == s' && NoHazard(run)
  }

  lemma SafelyHere(s: State)
    ensures LeadsSafely(s, s)
  {
    var run := Run([s], []);
    assert run.Valid() && run.states[0] == s && run.Last() == s && NoHazard(run);
  }

  lemma SafelyOn(s: State, s': State, step: Step)
    requires LeadsSafely(s, s') && Enabled(s', step) && !Hazardous(s', step)
    ensures LeadsSafely(s, Apply(s', step))
  {
    var run: Run :| run.Valid() && run.states[0] == s && run.Last() == s' && NoHazard(run);
    var longer := Run(run.states + [Apply(s', step)], run.steps + [step]);
    forall i | 0 <= i < |longer.steps| ensures longer.IsStep(i) && !Hazardous(longer.states[i], longer.steps[i]) {
      if i < |run.steps| {
        assert run.IsStep(i) && !Hazardous(run.states[i], run.steps[i]);
      }
    }
    assert longer.Valid() && longer.states[0] == s && longer.Last() == Apply(s', step) && NoHazard(longer);
  }

  /** The stasis thread and the bridges are where they were. */
  predicate SameStasis(s: State, s': State)
  {
    s'.bridges == s.bridges && s'.threads.stasis == s.threads.stasis && s'.threads.stasisBlock == s.threads.stasisBlock
  }

  lemma SafelyMoves(s: State, s1: State, c: CallId, move: Move) returns (s2: State)
    requires LeadsSafely(s, s1) && Concurrent(s1, c, move) && CanMove(CallOf(s1, c), move)
        && !Hazardous(s1, OnCall(c, move))
    ensures LeadsSafely(s, s2) && SameStasis(s1, s2) && KnownOf(s2, c) == After(c, KnownOf(s1, c), move)
    ensures s2.history.trace == Traced(s1.history.trace, Make(c, CallOf(s1, c), move).effect)
    ensures s2.history.dialed == s1.history.dialed
  {
    SafelyOn(s, s1, OnCall(c, move));
    s2 := Apply(s1, OnCall(c, move));
    MoveChanges(s1, c, move, c);
  }

  predicate Settles(e: Option<Effect>) { e.Some? && (e.value.LegAnswered? || e.value.HungUp? || e.value.ReportedGone?) }

  lemma StillUnsettled(trace: Trace, e: Option<Effect>, c: CallId, leg: ChannelId)
    requires !Settled(trace, c, leg) && !Settles(e)
    ensures !Settled(Traced(trace, e), c, leg)
  {
  }

  /** How an armed fallback gets to its leg, move by move. */
  function MoveToLeg(n: nat, found: Option<(BridgeId, ChannelId)>, leg: ChannelId): Move
    requires n < 9
  {
    match n
    case 0 => Leaves(Sender)
    case 1 => Fires
    case 2 => Triggers
    case 3 => Leaves(Timer)
    case 4 => ReadsPush(true)
    case 5 => FindsBridge(found)
    case 6 => Originates(Some(leg))
    case 7 => CancelsPushOfLeg
    case _ => Leaves(Timer)
  }

  /** And how far it is. */
  predicate IsAt(c: CallId, k: Known, n: nat, leg: ChannelId)
  {
    var v := k.v;
    && v.locked && v.requested && v.incoming.Some?
    && (if n < 7 then k.legs == Empty else IsLeg(c, k.legs, leg))
    && (if n == 0 then v.incoming.value.Pending? else if n < 9 then v.incoming.value.Notified?
           else v.incoming.value.Terminal())
    && (match n
        case 0 => v.blocks.Keys == {Sender} && v.blocks[Sender].incoming == Some(Notified(v.incoming.value.info))
                  && v.blocks[Sender].fallback == Some(FallbackPending)
        case 1 => v.blocks == map[] && v.timer == Some(Armed) && v.fallback == Some(FallbackPending)
        case 2 => v.blocks == map[] && v.timer == Some(HoldsLock) && v.fallback == Some(FallbackPending)
        case 3 => v.blocks.Keys == {Timer} && v.blocks[Timer] == Block(true, None, Some(Triggering))
            && v.timer == Some(ReadPush)
        case 4 => v.blocks == map[] && v.timer == Some(ReadPush) && v.fallback == Some(Triggering)
        case 5 => v.blocks == map[] && v.timer.Some? && v.timer.value.FindBridge? && v.fallback == Some(Triggering)
        case 6 => v.blocks == map[] && v.timer.Some? && v.timer.value.Commit? && v.fallback == Some(Triggering)
        case 7 => v.blocks.Keys == {Timer} && v.blocks[Timer] == Block(true, None, Some(Dialing(leg)))
            && v.timer == Some(LegUp)
        case 8 => v.blocks.Keys == {Timer} && v.timer == Some(Finished) && v.blocks[Timer].incoming.Some?
                  && v.blocks[Timer].incoming.value.PushCancelled? && v.blocks[Timer].fallback == Some(Dialing(leg))
        case _ => v.blocks == map[])
  }

  lemma MovesNext(c: CallId, k: Known, n: nat, found: Option<(BridgeId, ChannelId)>, leg: ChannelId)
    requires n < 9 && IsAt(c, k, n, leg) && found.Some?
    ensures CanMove(k.v, MoveToLeg(n, found, leg)) && IsAt(c, After(c, k, MoveToLeg(n, found, leg)), n + 1, leg)
    ensures !Settles(Make(c, k.v, MoveToLeg(n, found, leg)).effect)
  {
    if n == 0 {
      assert (k.v.blocks - {Sender}).Keys == {};
    } else if n == 3 || n == 8 {
      assert (k.v.blocks - {Timer}).Keys == {};
    }
  }

  /** The armed fallback gets to its leg, whatever the stasis thread is doing. */
  lemma {:induction false} FallbackDials(s: State, s1: State, c: CallId, n: nat, leg: ChannelId) returns (up: State)
    requires n <= 9 && LeadsSafely(s, s1) && IsAt(c, KnownOf(s1, c), n, leg) && BridgeOf(s1.bridges, c).Some?
    requires !Settled(s1.history.trace, c, leg)
    ensures LeadsSafely(s, up) && SameStasis(s1, up) && IsAt(c, KnownOf(up, c), 9, leg)
    ensures !Settled(up.history.trace, c, leg)
    decreases 9 - n
  {
    if n == 9 {
      up := s1;
    } else {
      var move := MoveToLeg(n, BridgeOf(s1.bridges, c), leg);
      MovesNext(c, KnownOf(s1, c), n, BridgeOf(s1.bridges, c), leg);
      var s2 := SafelyMoves(s, s1, c, move);
      StillUnsettled(s1.history.trace, Make(c, CallOf(s1, c), move).effect, c, leg);
      up := FallbackDials(s, s2, c, n + 1, leg);
    }
  }

  // ---- The teardown goes on ----

  /** How many steps the stasis thread has left until it has popped the fallback. */
  function StepsToPop(pc: StasisPc): nat
  {
    match pc
    case Joining(_, _, _) => 7
    case Stopping(_, _, _) => 6
    case Refusing(_, _) => 5
    case Removing(_, StopPush) => 5
    case Pruning(_, _) => 4
    case Popping(_, _, PopBridge, _) => 3
    case Popping(_, _, PopEntry(OfRingTime), _) => 2
    case Popping(_, _, PopEntry(OfFallback), _) => 1
    case _ => 0
  }

  function NextOfTeardown(pc: StasisPc): Step
  {
    match pc
    case Joining(_, _, _) => TakesDialer
    case Stopping(_, _, _) => Connects(ChannelLeft)
    case Refusing(_, _) => RefusesPush
    case Removing(_, _) => StopsPush
    case _ => Prunes
  }

  /** What the teardown needs of its call: the leg is up, and nobody is in a block. */
  ghost predicate LegIsUp(s: State, c: CallId, leg: ChannelId)
  {
    && Regular(s) && Free(s) && Handling(s) == Some(c) && StepsToPop(s.threads.stasis) > 0
    && IsAt(c, KnownOf(s, c), 9, leg) && !Settled(s.history.trace, c, leg)
  }

  lemma TeardownIsEnabled(s: State, c: CallId, leg: ChannelId)
    requires LegIsUp(s, c, leg)
    ensures Enabled(s, NextOfTeardown(s.threads.stasis))
  {
    var pc := s.threads.stasis;
    assert Stasis !in CallOf(s, c).blocks;
  }

  /** The steps that do not touch the call. */
  lemma PassiveTeardown(s: State, c: CallId, leg: ChannelId)
    requires LegIsUp(s, c, leg)
    requires s.threads.stasis.Joining? || s.threads.stasis.Stopping? || s.threads.stasis.Pruning?
    ensures var s' := Apply(s, NextOfTeardown(s.threads.stasis));
            && Free(s') && Handling(s') == Some(c) && s'.history.trace == s.history.trace
            && KnownOf(s', c) == KnownOf(s, c)
            && StepsToPop(s'.threads.stasis) < StepsToPop(s.threads.stasis) && StepsToPop(s'.threads.stasis) > 0
  {
    TeardownIsEnabled(s, c, leg);
  }

  /** The push is over by then, so cancelling it does nothing. */
  lemma IdleTeardown(s: State, c: CallId, leg: ChannelId)
    requires LegIsUp(s, c, leg)
    ensures CanStasisMove(s, Some(c), CancelsPush(Stasis))
    ensures StasisMove(s, Some(c), CancelsPush(Stasis)) == PutCall(s, c, CallOf(s, c))
  {
    assert Stasis !in CallOf(s, c).blocks;
  }

  lemma ActiveTeardown(s: State, c: CallId, leg: ChannelId)
    requires LegIsUp(s, c, leg) && StepsToPop(s.threads.stasis) == 5
    ensures var s' := Apply(s, NextOfTeardown(s.threads.stasis));
            && Free(s') && Handling(s') == Some(c) && s'.history.trace == s.history.trace
            && KnownOf(s', c) == KnownOf(s, c)
            && StepsToPop(s'.threads.stasis) == 4
  {
    TeardownIsEnabled(s, c, leg);
    IdleTeardown(s, c, leg);
    PutKeepsOthers(s, c, CallOf(s, c), c);
  }

  /** A pop of the teardown. */
  lemma TeardownPops(s: State, c: CallId)
    requires Free(s) && s.threads.stasis.Popping? && s.threads.stasis.pruned == c
    ensures Enabled(s, Prunes) && Apply(s, Prunes).history.trace == s.history.trace && Free(Apply(s, Prunes))
    ensures var pc, s' := s.threads.stasis, Apply(s, Prunes);
            if pc.pop.PopEntry?
            then
              && KnownOf(s', c) == After(c, KnownOf(s, c), Pops(pc.pop.entry))
              && s'.threads.stasis == AfterPop(pc.bridge, c, pc.pop.entry, pc.next)
            else
              && KnownOf(s', c) == KnownOf(s, c)
              && s'.threads.stasis == Popping(pc.bridge, c, PopEntry(OfRingTime), pc.next)
  {
    StepIsMove(s, Prunes, c);
  }

  lemma PopKeepsLeg(c: CallId, k: Known, leg: ChannelId, entry: Entry)
    requires IsAt(c, k, 9, leg)
    ensures entry.OfRingTime? ==> IsAt(c, After(c, k, Pops(entry)), 9, leg)
    ensures After(c, k, Pops(entry)).legs == k.legs && IsLeg(c, k.legs, leg)
    ensures After(c, k, Pops(entry)).v.blocks == map[]
        && (entry.OfFallback? ==> After(c, k, Pops(entry)).v.fallback.None?)
  {
  }

  /** The pops before that of the fallback. */
  lemma PoppingTeardown(s: State, c: CallId, leg: ChannelId)
    requires LegIsUp(s, c, leg) && s.threads.stasis.Popping? && StepsToPop(s.threads.stasis) > 1
    ensures var s' := Apply(s, Prunes);
            && Free(s') && Handling(s') == Some(c) && s'.history.trace == s.history.trace
            && IsAt(c, KnownOf(s', c), 9, leg)
            && StepsToPop(s'.threads.stasis) + 1 == StepsToPop(s.threads.stasis)
  {
    TeardownPops(s, c);
    PopKeepsLeg(c, KnownOf(s, c), leg, OfRingTime);
  }

  lemma TeardownGoesOn(s: State, c: CallId, leg: ChannelId)
    requires LegIsUp(s, c, leg) && StepsToPop(s.threads.stasis) > 1
    ensures Enabled(s, NextOfTeardown(s.threads.stasis))
    ensures var s' := Apply(s, NextOfTeardown(s.threads.stasis));
            LegIsUp(s', c, leg) && StepsToPop(s'.threads.stasis) < StepsToPop(s.threads.stasis)
  {
    TeardownIsEnabled(s, c, leg);
    StepKeepsRegular(s, NextOfTeardown(s.threads.stasis));
    if s.threads.stasis.Popping? {
      PoppingTeardown(s, c, leg);
    } else if StepsToPop(s.threads.stasis) == 5 {
      ActiveTeardown(s, c, leg);
    } else {
      PassiveTeardown(s, c, leg);
    }
  }

  lemma TeardownLosesLeg(s: State, c: CallId, leg: ChannelId)
    requires LegIsUp(s, c, leg) && StepsToPop(s.threads.stasis) == 1
    ensures Enabled(s, Prunes) && IsLost(Apply(s, Prunes), c, leg)
  {
    TeardownPops(s, c);
    PopKeepsLeg(c, KnownOf(s, c), leg, OfFallback);
  }

  lemma {:induction false} TeardownLoses(s: State, s1: State, c: CallId, leg: ChannelId) returns (lost: State)
    requires LeadsSafely(s, s1) && LegIsUp(s1, c, leg)
    ensures LeadsSafely(s, lost) && IsLost(lost, c, leg)
    decreases StepsToPop(s1.threads.stasis)
  {
    var step := NextOfTeardown(s1.threads.stasis);
    if StepsToPop(s1.threads.stasis) == 1 {
      TeardownLosesLeg(s1, c, leg);
      SafelyOn(s, s1, step);
      lost := Apply(s1, step);
    } else {
      TeardownGoesOn(s1, c, leg);
      SafelyOn(s, s1, step);
      lost := TeardownLoses(s, Apply(s1, step), c, leg);
    }
  }

  // ---- The stasis thread is in a block only of the call it is busy with ----

  predicate BlockIsHandled(s: State) { s.threads.stasisBlock.Some? ==> Busy(s) == s.threads.stasisBlock }

  /** The steps by which the stasis thread can enter a block. */
  predicate EntersBlock(step: Step) { step.StartsJoin? || step.StopsFallback? || step.RefusesPush? || step.StopsPush? }

  lemma EnteringIsHandled(s: State, step: Step)
    requires Coherent(s) && Enabled(s, step) && EntersBlock(step)
    ensures BlockIsHandled(Apply(s, step))
  {
    match step
    case StartsJoin(channel, b) => JoiningIsHandled(s, channel, b);
    case StopsFallback => StoppingFallbackIsHandled(s);
    case RefusesPush => StasisMoveKeepsBridges(s, s.threads.stasis.call, CancelsPush(Stasis));
    case StopsPush => StoppingPushIsHandled(s);
  }

  lemma JoiningIsHandled(s: State, channel: ChannelId, b: BridgeId)
    requires Coherent(s) && Enabled(s, StartsJoin(channel, b))
    ensures BlockIsHandled(Apply(s, StartsJoin(channel, b)))
  {
    StasisMoveKeepsBridges(s, Get(s.bridges.origin, b), Joins(channel));
  }

  lemma StoppingFallbackIsHandled(s: State)
    requires Coherent(s) && Enabled(s, StopsFallback)
    ensures BlockIsHandled(Apply(s, StopsFallback))
  {
    if !RemovalFails(s, s.threads.stasis.todo[0]) {
      StasisMoveKeepsBridges(s, Todo(s), CancelsFallback(Stasis));
    }
  }

  lemma StoppingPushIsHandled(s: State)
    requires Coherent(s) && Enabled(s, StopsPush)
    ensures BlockIsHandled(Apply(s, StopsPush))
  {
    StasisMoveKeepsBridges(s, Todo(s), CancelsPush(Stasis));
  }

  lemma StepKeepsHandled(s: State, step: Step)
    requires Coherent(s) && BlockIsHandled(s) && Enabled(s, step)
    ensures BlockIsHandled(Apply(s, step))
  {
    if step.OnCall? {
      MoveKeepsBridges(s, step.call, step.move);
    } else if EntersBlock(step) {
      EnteringIsHandled(s, step);
    } else {
      OthersAreFree(s, step);
    }
  }

  lemma OthersAreFree(s: State, step: Step)
    requires Enabled(s, step) && BlockIsHandled(s) && !step.OnCall? && !EntersBlock(step)
    ensures BlockIsHandled(Apply(s, step))
  {
  }

  lemma {:induction false} RunIsHandled(run: Run, i: nat)
    requires run.FromInitial() && i < |run.states|
    ensures BlockIsHandled(run.states[i])
  {
    if i > 0 {
      RunIsHandled(run, i - 1);
      RunIsCoherent(run, i - 1);
      assert run.IsStep(i - 1);
      StepKeepsHandled(run.states[i - 1], run.steps[i - 1]);
    }
  }

  // ---- The result ----

  /** From every hazardous state, and for every leg, some run loses that leg. */
  lemma HazardLosesLeg(s: State, c: CallId, leg: ChannelId) returns (lost: State)
    requires Regular(s) && BlockIsHandled(s) && Hazard(s, c) && Enabled(s, OnCall(c, Sends(true)))
        && !Settled(s.history.trace, c, leg)
    ensures LeadsSafely(Apply(s, OnCall(c, Sends(true))), lost) && IsLost(lost, c, leg)
  {
    var sent := Apply(s, OnCall(c, Sends(true)));
    HazardIsStart(s, c);
    StepKeepsRegular(s, OnCall(c, Sends(true)));
    StillUnsettled(s.history.trace, Make(c, CallOf(s, c), Sends(true)).effect, c, leg);
    SafelyHere(sent);
    var dialing := FallbackDials(sent, sent, c, 0, leg);
    LeadsRegularly(sent, dialing);
    lost := TeardownLoses(sent, dialing, c, leg);
  }

  lemma NobodyIsInBlock(v: Call)
    requires v.locked && OneHolder(v) && LockIsFree(v)
    ensures v.blocks == map[]
  {
    assert forall w :: w in v.blocks ==> Holds(v, w);
  }

  /** The bridge can be found only before it is popped. */
  lemma HazardIsEarly(s: State, c: CallId)
    requires Coherent(s) && Hazard(s, c)
    ensures StepsToPop(s.threads.stasis) > 0
  {
    assert StasisAgrees(s.bridges, s.threads.stasis);
  }

  /** The hazardous step itself: the stasis thread is in no block, and the send is alone in its own. */
  lemma HazardIsStart(s: State, c: CallId)
    requires Regular(s) && BlockIsHandled(s) && Hazard(s, c) && Enabled(s, OnCall(c, Sends(true)))
    ensures var sent := Apply(s, OnCall(c, Sends(true)));
            && Free(sent) && Handling(sent) == Some(c) && StepsToPop(sent.threads.stasis) > 0
            && BridgeOf(sent.bridges, c).Some?
            && forall leg :: IsAt(c, KnownOf(sent, c), 0, leg)
    ensures !Settles(Make(c, CallOf(s, c), Sends(true)).effect)
    ensures Apply(s, OnCall(c, Sends(true))).history.trace ==
            Traced(s.history.trace, Make(c, CallOf(s, c), Sends(true)).effect)
  {
    var v := CallOf(s, c);
    assert Base(c, KnownOf(s, c));
    NobodyIsInBlock(v);
    HazardIsEarly(s, c);
    assert s.threads.stasisBlock != Some(c);
    MoveChanges(s, c, Sends(true), c);
  }

  lemma LeadsRegularly(s: State, s': State)
    requires LeadsSafely(s, s') && Regular(s)
    ensures Regular(s')
  {
    var run: Run :| run.Valid() && run.states[0] == s && run.Last() == s' && NoHazard(run);
    RegularStays(run, |run.steps|);
  }

  lemma {:induction false} RegularStays(run: Run, i: nat)
    requires run.Valid() && i < |run.states| && Regular(run.states[0])
    ensures Regular(run.states[i])
  {
    if i > 0 {
      RegularStays(run, i - 1);
      assert run.IsStep(i - 1);
      StepKeepsRegular(run.states[i - 1], run.steps[i - 1]);
    }
  }

  /** After any run without a hazardous step, let the second half of a push be sent with the fallback enabled.
      Whatever follows, without another hazardous step: the leg of that call can be lost exactly if the call is
      being torn down, its push is still pending and its lock and its bridge are there. */
  lemma LegIsLostExactly(run: Run, c: CallId, leg: ChannelId)
    requires run.FromInitial() && NoHazard(run) && Enabled(run.Last(), OnCall(c, Sends(true)))
    requires !Settled(run.Last().history.trace, c, leg)
    ensures (exists s' :: LeadsSafely(Apply(run.Last(), OnCall(c, Sends(true))), s') && IsLost(s', c, leg))
        <==> Hazard(run.Last(), c)
  {
    var s, step := run.Last(), OnCall(c, Sends(true));
    RunIsRegular(run, |run.steps|);
    RunIsHandled(run, |run.steps|);
    if Hazard(s, c) {
      var lost := HazardLosesLeg(s, c, leg);
    } else {
      HarmlessLosesNothing(run, step, c, leg);
    }
  }

  /** After a step that is not hazardous either, no leg is lost. */
  lemma HarmlessLosesNothing(run: Run, step: Step, c: CallId, leg: ChannelId)
    requires run.FromInitial() && NoHazard(run) && Enabled(run.Last(), step) && !Hazardous(run.Last(), step)
    ensures forall s' :: LeadsSafely(Apply(run.Last(), step), s') ==> !IsLost(s', c, leg)
  {
    InitialIsSafe(run);
    SafeRunStaysSafe(run, |run.steps|);
    StepKeepsSafe(run.Last(), step);
    StepKeepsRegular(run.Last(), step);
    forall s' | LeadsSafely(Apply(run.Last(), step), s') ensures !IsLost(s', c, leg) {
      SafelyKeepsLegs(Apply(run.Last(), step), s', c, leg);
    }
  }

  // ---- The other way to lose a leg ----

  /** Whoever still holds the lock leaves its block first. */
  lemma HolderLeaves(s: State, s1: State, c: CallId) returns (s2: State)
    requires LeadsSafely(s, s1) && Regular(s1) && IsLate(CallOf(s1, c)) && Commits(CallOf(s1, c))
    ensures LeadsSafely(s, s2) && Regular(s2) && IsLate(CallOf(s2, c)) && Commits(CallOf(s2, c))
        && LockIsFree(CallOf(s2, c))
    ensures s2.history.trace == s1.history.trace
  {
    s2 := s1;
    var v := CallOf(s1, c);
    if !LockIsFree(v) {
      var w :| w in v.blocks && v.blocks[w].locked;
      var step := if w.Stasis? then StasisLeaves else OnCall(c, Leaves(w));
      assert BlockIsSound(c, KnownOf(s1, c), w, v.blocks[w]);
      SafelyOn(s, s1, step);
      StepIsMove(s1, step, c);
      StepKeepsRegular(s1, step);
      s2 := Apply(s1, step);
      NobodyElseHolds(v, w);
    }
  }

  lemma NobodyElseHolds(v: Call, w: Worker)
    requires OneHolder(v) && Holds(v, w)
    ensures LockIsFree(v.(blocks := v.blocks - {w}))
  {
    forall u | u in v.blocks && u != w ensures !v.blocks[u].locked {
      assert Holds(v, u) ==> u == w;
    }
  }

  /** The timer thread is about to originate. */
  predicate Commits(v: Call) { v.timer.Some? && v.timer.value.Commit? }

  /** Once the timer thread has found a bridge for such a call, its leg is originated without a lock. */
  lemma LateLosesLeg(s: State, c: CallId, leg: ChannelId) returns (lost: State)
    requires Regular(s) && IsLate(CallOf(s, c)) && Commits(CallOf(s, c)) && !Settled(s.history.trace, c, leg)
    ensures LeadsSafely(s, lost) && IsLost(lost, c, leg)
  {
    SafelyHere(s);
    var free := HolderLeaves(s, s, c);
    assert Base(c, KnownOf(free, c));
    lost := SafelyMoves(s, free, c, Originates(Some(leg)));
    StillUnsettled(free.history.trace, Make(c, CallOf(free, c), Originates(Some(leg))).effect, c, leg);
  }

  /** After any run without a hazardous step, let the timer thread of a call find a bridge.  Whatever follows,
      without another hazardous step: the leg of that call can be lost exactly if the call has no lock by then, its
      fallback is triggered, and nobody is going to write it. */
  lemma LateLegIsLostExactly(run: Run, c: CallId, found: (BridgeId, ChannelId), leg: ChannelId)
    requires run.FromInitial() && NoHazard(run) && Enabled(run.Last(), OnCall(c, FindsBridge(Some(found))))
    requires !Settled(run.Last().history.trace, c, leg)
    ensures (exists s' :: LeadsSafely(Apply(run.Last(), OnCall(c, FindsBridge(Some(found)))), s') && IsLost(s', c, leg))
            <==> IsLate(CallOf(run.Last(), c))
  {
    var s, step := run.Last(), OnCall(c, FindsBridge(Some(found)));
    RunIsRegular(run, |run.steps|);
    if IsLate(CallOf(s, c)) {
      StepIsMove(s, step, c);
      StepKeepsRegular(s, step);
      MoveTraces(s, step, c);
      var lost := LateLosesLeg(Apply(s, step), c, leg);
    } else {
      HarmlessLosesNothing(run, step, c, leg);
    }
  }

  lemma SafelyKeepsLegs(s: State, s': State, c: CallId, leg: ChannelId)
    requires LeadsSafely(s, s') && Regular(s) && Safe(s)
    ensures !IsLost(s', c, leg)
  {
    var run: Run :| run.Valid() && run.states[0] == s && run.Last() == s' && NoHazard(run);
    SafeRunStaysSafe(run, |run.steps|);
    assert SafeCall(s', c);
  }

  // ---- Both are reached ----

  /** A call that is requested while a mobile already joins its bridge. */
  lemma RequestedInJoin(c: CallId, b: BridgeId) returns (s: State)
    ensures LeadsSafely(Initial, s) && Free(s) && s.threads.stasis == Joining(ChannelId("mobile"), b, Some(c))
    ensures b in s.bridges.dialers && b in s.bridges.callerLeg && Get(s.bridges.origin, b) == Some(c)
        && c in s.bridges.byOrigin
    ensures s.history.dialed == map[b := {}]
    ensures IsRequested(CallOf(s, c))
  {
    var info := PushInfo("id", "tenant", "user", "payload");
    SafelyHere(Initial);
    var dialed := Dial(Initial, ChannelId("caller"), c, Aor("aor"), b);
    SafelyOn(Initial, Initial, Dials(ChannelId("caller"), c, Aor("aor"), b));
    assert CallOf(dialed, c) == CallOf(Initial, c);
    var requested := SafelyMoves(Initial, dialed, c, SendsFirst(info, 30));
    s := HeadOfUnarmedJoin(requested, c, b, ChannelId("mobile"));
    SafelyOn(Initial, requested, StartsJoin(ChannelId("mobile"), b));
  }

  /** The first hazard is reached: the push of such a call is about to be sent. */
  lemma HazardIsReachable() returns (s: State, c: CallId)
    ensures LeadsSafely(Initial, s) && Hazard(s, c) && Enabled(s, OnCall(c, Sends(true)))
  {
    c := CallId("call");
    s := RequestedInJoin(c, BridgeId("bridge"));
  }

  lemma SafelyPops(s: State, s1: State, c: CallId, entry: Entry) returns (s2: State)
    requires LeadsSafely(s, s1) && AboutToPop(s1, c, entry)
    ensures LeadsSafely(s, s2) && Free(s2)
        && s2.threads.stasis == AfterPop(s1.threads.stasis.bridge, c, entry, s1.threads.stasis.next)
    ensures s2.bridges == s1.bridges && s2.history == s1.history && CallOf(s2, c) == Forget(CallOf(s1, c), entry)
  {
    SafelyOn(s, s1, Prunes);
    s2 := Apply(s1, Prunes);
    StepIsMove(s1, Prunes, c);
  }

  /** The join goes on, up to its prune. */
  lemma JoinedUpToPrune(s: State, c: CallId, b: BridgeId) returns (s': State)
    requires LeadsSafely(Initial, s) && Free(s) && s.threads.stasis == Joining(ChannelId("mobile"), b, Some(c))
    requires b in s.bridges.dialers && b in s.bridges.callerLeg && Get(s.bridges.origin, b) == Some(c)
    ensures LeadsSafely(Initial, s') && Free(s') && s'.threads.stasis == Pruning(b, [])
        && Get(s'.bridges.origin, b) == Some(c)
    ensures s'.history.dialed == s.history.dialed && CallOf(s', c) == CallOf(s, c)
  {
    SafelyOn(Initial, s, TakesDialer);
    var stopping := JoinTake(s, ChannelId("mobile"), b, Some(c));
    SafelyOn(Initial, stopping, Connects(ChannelLeft));
    s' := JoinConnect(stopping, ChannelId("mobile"), b, Some(c), ChannelLeft);
  }

  /** The bridge is popped, then the ring time and the fallback. */
  lemma PrunedUpToLock(s: State, c: CallId, b: BridgeId) returns (s': State)
    requires LeadsSafely(Initial, s) && Free(s) && s.threads.stasis == Pruning(b, [])
        && Get(s.bridges.origin, b) == Some(c)
    ensures LeadsSafely(Initial, s') && AboutToPop(s', c, OfLock)
        && s'.threads.stasis == Popping(b, c, PopEntry(OfLock), [])
    ensures s'.history.dialed == s.history.dialed && c !in s'.bridges.byOrigin
    ensures CallOf(s', c) == CallOf(s, c).(ringTime := None, fallback := None)
  {
    SafelyOn(Initial, s, Prunes);
    var looked := PopNext(s);
    SafelyOn(Initial, looked, Prunes);
    var popping := PopNext(looked);
    assert CallOf(popping, c) == CallOf(s, c);
    var popped := SafelyPops(Initial, popping, c, OfRingTime);
    s' := SafelyPops(Initial, popped, c, OfFallback);
  }

  /** A call whose push is requested and not sent, with nobody in a block. */
  predicate IsRequested(v: Call)
  {
    && v.locked && v.requested && v.send.Some? && v.timer.None? && v.fallback.None? && v.blocks == map[]
    && v.incoming == Some(Pending(v.send.value))
  }

  /** The push is sent and armed behind the pop of the fallback. */
  lemma ArmedBehindPop(s: State, c: CallId) returns (s': State)
    requires LeadsSafely(Initial, s) && AboutToPop(s, c, OfLock) && c !in s.bridges.byOrigin
        && IsRequested(CallOf(s, c))
    ensures LeadsSafely(Initial, s') && SameStasis(s, s') && s'.history.dialed == s.history.dialed
    ensures var v := CallOf(s', c);
            && v.requested && v.locked && v.blocks == map[] && v.fallback == Some(FallbackPending)
            && v.timer == Some(Armed)
            && v.incoming.Some? && v.incoming.value.Notified?
  {
    var sent := SafelyMoves(Initial, s, c, Sends(true));
    s' := SafelyMoves(Initial, sent, c, Leaves(Sender));
    assert (CallOf(sent, c).blocks - {Sender}).Keys == {};
  }

  /** The timer thread is triggered, and reads the push in time. */
  lemma TriggeredBehindPop(s: State, c: CallId) returns (s': State)
    requires LeadsSafely(Initial, s)
    requires var v := CallOf(s, c);
             && v.requested && v.locked && v.blocks == map[] && v.fallback == Some(FallbackPending)
             && v.timer == Some(Armed)
             && v.incoming.Some? && v.incoming.value.Notified?
    ensures LeadsSafely(Initial, s') && SameStasis(s, s') && s'.history.dialed == s.history.dialed
    ensures var v := CallOf(s', c);
            v.requested && v.blocks == map[] && v.fallback == Some(Triggering) && v.timer.Some?
                && v.timer.value.FindBridge?
  {
    var fired := SafelyMoves(Initial, s, c, Fires);
    var entered := SafelyMoves(Initial, fired, c, Triggers);
    var triggered := SafelyMoves(Initial, entered, c, Leaves(Timer));
    assert (CallOf(entered, c).blocks - {Timer}).Keys == {};
    s' := SafelyMoves(Initial, triggered, c, ReadsPush(true));
  }

  /** The prune ends, and the same origin call is dialed again. */
  lemma DialedAgain(s: State, c: CallId, b: BridgeId, b': BridgeId) returns (s': State)
    requires LeadsSafely(Initial, s) && AboutToPop(s, c, OfLock) && s.threads.stasis.next == []
        && b' !in s.history.dialed
    ensures LeadsSafely(Initial, s') && BridgeOf(s'.bridges, c) == Some((b', ChannelId("caller")))
    ensures CallOf(s', c) == CallOf(s, c).(locked := false, incoming := None)
  {
    var unlocked := SafelyPops(Initial, s, c, OfLock);
    var popped := SafelyPops(Initial, unlocked, c, OfIncoming);
    SafelyOn(Initial, popped, Prunes);
    var idle := PopNext(popped);
    SafelyOn(Initial, idle, Dials(ChannelId("caller"), c, Aor("aor"), b'));
    s' := Dial(idle, ChannelId("caller"), c, Aor("aor"), b');
  }

  /** The second hazard is reached: the prune ends, and the same origin call is dialed again. */
  lemma LateHazardIsReachable() returns (s: State, c: CallId, found: (BridgeId, ChannelId))
    ensures LeadsSafely(Initial, s) && IsLate(CallOf(s, c)) && Enabled(s, OnCall(c, FindsBridge(Some(found))))
  {
    c := CallId("call");
    var b, b', caller := BridgeId("first"), BridgeId("second"), ChannelId("caller");
    var requested := RequestedInJoin(c, b);
    var joined := JoinedUpToPrune(requested, c, b);
    var pruning := PrunedUpToLock(joined, c, b);
    var armed := ArmedBehindPop(pruning, c);
    var triggered := TriggeredBehindPop(armed, c);
    s := DialedAgain(triggered, c, b, b');
    found := (b', caller);
  }
}
