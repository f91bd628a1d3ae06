/** Where effects and entries come from.  Every effect of a run has a reason: a step, taken in a state, that a table
    of its own allows to have it; and every step that has a reason for an effect has it.  So what a run does to the
    outside world can be read off its steps alone. */
module DialMobileReasons {
  import opened Wrappers
  import opened Identifiers
  import opened DialMobileModel
  import opened DialMobileCalls
  import opened DialMobileSteps
  import opened DialMobileRuns
  import opened DialMobilePrunes

  // ---- The reasons ----

  /** A worker asks for the push to be cancelled. */
  predicate EndsPush(move: Move)
  {
    move.CancelsPush? || move.CancelsPushOfLeg? || (move.EntersLate? && move.purpose.ToCancelPush?)
  }

  /** A worker ends a fallback that dials this leg, and is not the leg itself. */
  predicate EndsFallback(v: Call, move: Move, leg: ChannelId)
  {
    || (v.locked && (move.CancelsFallback? || (move.Joins? && move.channel != leg)))
    || (move.EntersLate? && move.purpose.ToCancelFallback?)
  }

  /** What a move of a call may do, and must do, to the outside world. */
  predicate CallReason(c: CallId, v: Call, move: Move, e: Effect)
    requires CanMove(v, move)
  {
    match e
    case PushSent(d, info) => d == c && move.Sends? && v.send == Some(info) && v.incoming.Some?
        && v.incoming.value.Pending?
    case PushCancelSent(d, info) => d == c && EndsPush(move) && v.incoming == Some(Notified(info))
    case TimerStarted(d) => d == c && move == Leaves(Sender) && v.blocks[Sender].fallback.Some?
    case LegOriginated(d, leg, b) =>
      && d == c && move == Originates(Some(leg)) && v.fallback == Some(Triggering) && v.timer.value.bridge == b
    case LegAnswered(d, leg) => d == c && move == Joins(leg) && v.locked && v.fallback == Some(Dialing(leg))
    case HungUp(x) => v.fallback == Some(Dialing(x)) && EndsFallback(v, move, x)
    case ReportedGone(_) => false
    case BridgeCreated(_, _, _) => false
  }

  lemma MovesHaveReasons(c: CallId, v: Call, move: Move, e: Effect)
    requires CanMove(v, move)
    ensures Make(c, v, move).effect == Some(e) <==> CallReason(c, v, move, e)
  {
  }

  /** What the stasis thread does on its own account: a late channel, or one whose caller left, is hung up; a bridge
      is created from the channel that joins and the caller; a lost channel is reported; and the callers of the other
      dialers that know a lost channel are hung up. */
  predicate StasisReason(s: State, step: Step, e: Effect)
    requires Enabled(s, step)
  {
    var pc := s.threads.stasis;
    match step
    case TakesDialer => e == HungUp(pc.channel) && pc.bridge !in s.bridges.dialers
    case Connects(CallerLeft) => e == HungUp(pc.channel)
    case Connects(Bridged) => e == BridgeCreated(pc.bridge, pc.channel, s.bridges.callerLeg[pc.bridge])
    case Connects(AriFailed(created)) =>
      created && e == BridgeCreated(pc.bridge, pc.channel, s.bridges.callerLeg[pc.bridge])
    case HearsGone(channel) => e == ReportedGone(channel)
    case CollectsGone(_) => e.HungUp? && e.channel != pc.channel && CallsOnAbout(s, e.channel, pc.channel)
    case _ => false
  }

  /** The caller of a dialer that knows the channel. */
  predicate CallsOnAbout(s: State, caller: ChannelId, channel: ChannelId)
  {
    exists b :: b in Knowing(s, channel) && s.bridges.dialers[b].caller == caller
  }

  /** The call that a step moves. */
  function Moved(s: State, step: Step): Option<CallId>
  {
    match step
    case OnCall(c, _) => Some(c)
    case StasisLeaves => s.threads.stasisBlock
    case StartsJoin(_, b) => Get(s.bridges.origin, b)
    case RefusesPush => if s.threads.stasis.Refusing? then s.threads.stasis.call else None
    case MarksGone(c) => Some(c)
    case StopsFallback => Todo(s)
    case StopsPush => Todo(s)
    case Prunes => if s.threads.stasis.Popping? then Some(s.threads.stasis.pruned) else None
    case _ => None
  }

  predicate MoveReason(s: State, step: Step, e: Effect)
  {
    Moved(s, step).Some? &&
      var c := Moved(s, step).value;
      var move := MoveOf(s, step, c);
      move.Some? && CanMove(CallOf(s, c), move.value) && CallReason(c, CallOf(s, c), move.value, e)
  }

  /** The step has the effect. */
  predicate Reason(s: State, step: Step, e: Effect)
    requires Enabled(s, step)
  {
    StasisReason(s, step, e) || MoveReason(s, step, e)
  }

  // ---- What a block writes ----

  /** What the dictionaries say of a call. */
  datatype Entries = Entries(
    incoming: Option<IncomingCall>,
    fallback: Option<PstnFallback>,
    locked: bool,
    ringTime: Option<int>)

  function EntriesOf(v: Call): Entries { Entries(v.incoming, v.fallback, v.locked, v.ringTime) }

  function CancelledPush(i: Option<IncomingCall>): Option<IncomingCall>
  {
    if i.Some? && !i.value.Terminal() then Some(PushCancelled(i.value.info)) else i
  }

  function CompletedPush(i: Option<IncomingCall>): Option<IncomingCall>
  {
    if i.Some? && !i.value.Terminal() then Some(Received(i.value.info)) else i
  }

  function CancelledFallback(f: Option<PstnFallback>): Option<PstnFallback>
  {
    if f.Some? && !f.value.Quiet() then Some(FallbackCancelled) else f
  }

  /** The entries of a call after a block about it that nothing interrupts, as a table of its own: a live push is
      cancelled, completed or sent; a fallback that is not quiet is cancelled, answered by its own leg, armed,
      triggered, dialed or given up. */
  function Written(v: Call, move: Move): Entries
  {
    var e := EntriesOf(v);
    match move
    case SendsFirst(info, ringTime) => Entries(Some(Pending(info)), v.fallback, true, Some(ringTime))
    case Sends(eligible) =>
      if v.incoming.Some? && v.incoming.value.Pending? && v.send.Some?
      then e.(incoming := Some(Notified(v.send.value)),
              fallback := if eligible then Some(FallbackPending) else v.fallback)
      else e
    case CancelsPush(_) => e.(incoming := CancelledPush(v.incoming))
    case CompletesPush(_) => e.(incoming := CompletedPush(v.incoming))
    case CancelsFallback(_) => if v.locked then e.(fallback := CancelledFallback(v.fallback)) else e
    case EntersLate(_, ToCancelPush) => e.(incoming := CancelledPush(v.incoming))
    case EntersLate(_, ToCompletePush) => e.(incoming := CompletedPush(v.incoming))
    case EntersLate(_, ToCancelFallback) => e.(fallback := CancelledFallback(v.fallback))
    case Triggers => if v.fallback == Some(FallbackPending) then e.(fallback := Some(Triggering)) else e
    case Originates(leg) =>
      if v.fallback == Some(Triggering) && leg.Some? then e.(fallback := Some(Dialing(leg.value))) else e
    case Aborts => if v.fallback == Some(Triggering) then e.(fallback := Some(FallbackCancelled)) else e
    case Joins(channel) =>
      if !v.locked then e
      else if v.fallback == Some(Dialing(channel)) then e.(fallback := Some(DialAnswered(channel)))
      else e.(fallback := CancelledFallback(v.fallback))
    case Marks(channel) => if v.fallback == Some(Dialing(channel)) then e.(fallback := Some(FallbackCancelled)) else e
    case Pops(OfRingTime) => e.(ringTime := None)
    case Pops(OfFallback) => e.(fallback := None)
    case Pops(OfLock) => e.(locked := false)
    case Pops(OfIncoming) => e.(incoming := None)
    case Fires => e
    case ReadsPush(_) => e
    case FindsBridge(_) => e
    case Leaves(_) => e
    case CancelsPushOfLeg => e
  }

  /** The move, and the end of the block that it enters. */
  function Whole(c: CallId, v: Call, move: Move): Call
    requires CanMove(v, move)
  {
    var v' := Make(c, v, move).call;
    if WorkerOf(move) in v'.blocks then Leave(c, v', WorkerOf(move)).call else v'
  }

  lemma BlocksWriteThis(c: CallId, v: Call, move: Move)
    requires CanMove(v, move) && WorkerOf(move) !in v.blocks
    ensures EntriesOf(Whole(c, v, move)) == Written(v, move)
  {
    if WorkerOf(move) == Timer {
      TimerBlocksWriteThis(c, v, move);
    } else if move.EntersLate? {
      LateBlocksWriteThis(c, v, move.worker, move.purpose);
    }
  }

  lemma LateBlocksWriteThis(c: CallId, v: Call, w: Worker, purpose: Purpose)
    requires CanMove(v, EntersLate(w, purpose)) && w !in v.blocks
    ensures EntriesOf(Whole(c, v, EntersLate(w, purpose))) == Written(v, EntersLate(w, purpose))
  {
  }

  lemma TimerBlocksWriteThis(c: CallId, v: Call, move: Move)
    requires CanMove(v, move) && WorkerOf(move) == Timer && Timer !in v.blocks
    ensures EntriesOf(Whole(c, v, move)) == Written(v, move)
  {
    if move.Triggers? || move.Originates? || move.Aborts? {
      PhasesWriteThis(c, v, move);
    }
  }

  lemma PhasesWriteThis(c: CallId, v: Call, move: Move)
    requires CanMove(v, move) && (move.Triggers? || move.Originates? || move.Aborts?) && Timer !in v.blocks
    ensures EntriesOf(Whole(c, v, move)) == Written(v, move)
  {
  }

  /** Whoever enters a block holds the lock if there is one; the sender and the timer thread hold the one they got
      before, and a thread that comes late the one it found. */
  lemma BlocksHoldLocks(c: CallId, v: Call, move: Move)
    requires CanMove(v, move) && WorkerOf(move) !in v.blocks && WorkerOf(move) in Make(c, v, move).call.blocks
    ensures Holds(Make(c, v, move).call, WorkerOf(move))
        <==> v.locked || move.EntersLate? || move.Sends? || WorkerOf(move).Timer?
  {
  }

  /** The last phase of the timer thread as a whole: the leg is remembered, and the push is cancelled if it was live. */
  lemma Phase3WritesThis(c: CallId, v: Call, leg: ChannelId)
    requires CanMove(v, Originates(Some(leg))) && Timer !in v.blocks && v.fallback == Some(Triggering)
    ensures CanMove(Make(c, v, Originates(Some(leg))).call, CancelsPushOfLeg)
    ensures var v' := Make(c, Make(c, v, Originates(Some(leg))).call, CancelsPushOfLeg).call;
            && CanLeave(v', Timer)
            && EntriesOf(Leave(c, v', Timer).call)
               == EntriesOf(v).(incoming := CancelledPush(v.incoming), fallback := Some(Dialing(leg)))
  {
  }

  // ---- A fallback that is Triggering ----

  /** While a fallback is Triggering its timer thread is still at work: it is going to dial or to cancel it. */
  predicate IsAttended(v: Call)
  {
    v.fallback == Some(Triggering) ==>
      && v.timer.Some?
      && match v.timer.value
         case Armed => false
         case HoldsLock => false
         case ReadPush => true
         case FindBridge(_) => true
         case Commit(_, _, _) => true
         case LegUp => true
         case Aborting => true
         case Finished => Timer in v.blocks && v.blocks[Timer].fallback.Some?
  }

  lemma MovesKeepAttended(c: CallId, k: Known, move: Move)
    requires Base(c, k) && CanMove(k.v, move) && IsAttended(k.v)
    ensures IsAttended(After(c, k, move).v)
  {
    if move.Leaves? {
      LeavingKeepsAttended(c, k, move.worker);
    }
  }

  lemma LeavingKeepsAttended(c: CallId, k: Known, w: Worker)
    requires Base(c, k) && CanMove(k.v, Leaves(w)) && IsAttended(k.v)
    ensures IsAttended(After(c, k, Leaves(w)).v)
  {
    assert BlockIsSound(c, k, w, k.v.blocks[w]);
  }

  lemma {:induction false} TriggeringIsAttended(run: Run, n: nat, c: CallId)
    requires run.FromInitial() && n < |run.states|
    ensures IsAttended(CallOf(run.states[n], c))
  {
    if n > 0 {
      TriggeringIsAttended(run, n - 1, c);
      EveryCallIsSound(run, n - 1, c);
      OneStepIsMove(run, n - 1, c);
      var move := MoveOf(run.states[n - 1], run.steps[n - 1], c);
      if move.Some? {
        MovesKeepAttended(c, KnownAt(run, n - 1, c), move.value);
      }
    }
  }

  /** Whatever happens: once its timer thread is done and in no block, the fallback of a call is not left Triggering. */
  lemma NeverLeftTriggering(run: Run, n: nat, c: CallId)
    requires run.FromInitial() && n < |run.states|
    requires CallOf(run.states[n], c).timer == Some(Finished) && Timer !in CallOf(run.states[n], c).blocks
    ensures Get(run.states[n].calls.fallbacks, c) != Some(Triggering)
  {
    TriggeringIsAttended(run, n, c);
  }

  // ---- Every step has exactly the effects it has a reason for ----

  function Grown(trace: Trace, effect: Option<Effect>): Trace
  {
    if effect.Some? then Then(trace, effect.value) else trace
  }

  lemma StasisMoveGrows(s: State, call: Option<CallId>, move: Move)
    requires CanStasisMove(s, call, move)
    ensures StasisMove(s, call, move).history.trace ==
            if call.None? then s.history.trace
            else Grown(s.history.trace, Make(call.value, CallOf(s, call.value), move).effect)
  {
  }

  lemma {:induction false} RefusalsHangUp(trace: Trace, dialers: map<BridgeId, Dialer>, channel: ChannelId,
      order: seq<BridgeId>, e: Effect)
    requires forall b :: b in order ==> b in dialers
    ensures RefuseCallers(trace, dialers, channel, order).Has(e)
        <==> trace.Has(e)
             || (e.HungUp? && e.channel != channel
                 && exists b :: b in order && dialers[b].caller == e.channel)
  {
    if order != [] {
      var last := order[|order| - 1];
      assert order == order[..|order| - 1] + [last];
      assert forall b :: b in order <==> b in order[..|order| - 1] || b == last;
      RefusalsHangUp(trace, dialers, channel, order[..|order| - 1], e);
    }
  }

  /** A step that moves a call has the effect of the move. */
  lemma MovingGrows(s: State, step: Step)
    requires Enabled(s, step) && !step.TakesDialer? && !step.Connects? && !step.HearsGone? && !step.CollectsGone?
    ensures Apply(s, step).history.trace ==
            match Moved(s, step)
            case None => s.history.trace
            case Some(c) =>
              match MoveOf(s, step, c)
              case None => s.history.trace
              case Some(move) => if CanMove(CallOf(s, c), move)
                                 then Grown(s.history.trace, Make(c, CallOf(s, c), move).effect) else s.history.trace
  {
    var pc := s.threads.stasis;
    match step
    case StartsJoin(channel, b) => StasisMoveGrows(s, Get(s.bridges.origin, b), Joins(channel));
    case RefusesPush => StasisMoveGrows(s, pc.call, CancelsPush(Stasis));
    case StopsFallback => StasisMoveGrows(s, Get(s.bridges.origin, pc.todo[0]), CancelsFallback(Stasis));
    case StopsPush => StasisMoveGrows(s, Get(s.bridges.origin, pc.todo[0]), CancelsPush(Stasis));
    case _ =>
  }

  lemma MovingHasReasons(s: State, step: Step, e: Effect)
    requires Enabled(s, step) && !step.TakesDialer? && !step.Connects? && !step.HearsGone? && !step.CollectsGone?
    ensures Apply(s, step).history.trace.Has(e) <==> s.history.trace.Has(e) || MoveReason(s, step, e)
  {
    MovingGrows(s, step);
    if Moved(s, step).Some? {
      var c := Moved(s, step).value;
      var move := MoveOf(s, step, c);
      if move.Some? && CanMove(CallOf(s, c), move.value) {
        MovesHaveReasons(c, CallOf(s, c), move.value, e);
      }
    }
  }

  lemma StepHasReasons(s: State, step: Step, e: Effect)
    requires Enabled(s, step)
    ensures Apply(s, step).history.trace.Has(e) <==> s.history.trace.Has(e) || Reason(s, step, e)
  {
    if step.CollectsGone? {
      RefusalsHangUp(s.history.trace, s.bridges.dialers, s.threads.stasis.channel, step.order, e);
    } else if !step.TakesDialer? && !step.Connects? && !step.HearsGone? {
      MovingHasReasons(s, step, e);
    }
  }

  // ---- Whole runs ----

  ghost predicate HasReason(run: Run, k: nat, e: Effect)
    requires run.Valid() && k < |run.steps|
  {
    assert run.IsStep(k);
    Reason(run.states[k], run.steps[k], e)
  }

  /** An effect is in the trace exactly if some step so far had a reason for it. */
  lemma {:induction false} EffectsHaveReasons(run: Run, i: nat, e: Effect)
    requires run.FromInitial() && i < |run.states|
    ensures run.states[i].history.trace.Has(e) <==> exists k :: 0 <= k < i && HasReason(run, k, e)
  {
    if i > 0 {
      EffectsHaveReasons(run, i - 1, e);
      assert run.IsStep(i - 1);
      StepHasReasons(run.states[i - 1], run.steps[i - 1], e);
      assert HasReason(run, i - 1, e) <==> Reason(run.states[i - 1], run.steps[i - 1], e);
    }
  }

  // ---- Where what is pushed comes from ----

  /** What was requested: the content of the push, and how long the call rings. */
  datatype Request = Request(info: PushInfo, ringTime: int)

  /** The push of the call was requested at this step. */
  predicate RequestedAt(run: Run, k: nat, c: CallId, r: Request)
    requires k < |run.steps|
  {
    run.steps[k] == OnCall(c, SendsFirst(r.info, r.ringTime))
  }

  ghost predicate WasRequested(run: Run, n: nat, c: CallId, r: Request)
    requires n <= |run.steps|
  {
    exists k :: 0 <= k < n && RequestedAt(run, k, c, r)
  }

  predicate SaysOnly(i: Option<IncomingCall>, info: PushInfo) { i.Some? ==> i.value.info == info }

  /** Nothing is known, or going to be written, but what was requested. */
  predicate OnlyAbout(v: Call, r: Request)
  {
    && (v.send.Some? ==> v.send.value == r.info) && (v.ringTime.Some? ==> v.ringTime.value == r.ringTime)
    && SaysOnly(v.incoming, r.info)
    && (forall w :: w in v.blocks ==> SaysOnly(v.blocks[w].incoming, r.info))
  }

  lemma SendKeepsRequest(c: CallId, v: Call, move: Move)
    requires CanMove(v, move) && !move.SendsFirst?
    ensures Make(c, v, move).call.send == v.send || Make(c, v, move).call.send.None?
  {
  }

  lemma RingTimeKeepsRequest(c: CallId, v: Call, move: Move)
    requires CanMove(v, move) && !move.SendsFirst?
    ensures Make(c, v, move).call.ringTime == v.ringTime || Make(c, v, move).call.ringTime.None?
  {
  }

  lemma IncomingKeepsRequest(c: CallId, v: Call, move: Move)
    requires CanMove(v, move) && !move.SendsFirst?
    ensures var i := Make(c, v, move).call.incoming;
            || i == v.incoming || i.None? || (move.Leaves? && i == v.blocks[move.worker].incoming)
  {
  }

  /** What the worker that moves is going to write. */
  lemma OwnBlockKeepsRequest(c: CallId, v: Call, move: Move, r: Request)
    requires CanMove(v, move) && !move.SendsFirst? && OnlyAbout(v, r)
    ensures var v', w := Make(c, v, move).call, WorkerOf(move);
            w in v'.blocks ==> SaysOnly(v'.blocks[w].incoming, r.info)
  {
    if WorkerOf(move) == Timer {
      TimerBlockKeepsRequest(c, v, move, r);
    } else {
      OtherBlockKeepsRequest(c, v, move, r);
    }
  }

  lemma OtherBlockKeepsRequest(c: CallId, v: Call, move: Move, r: Request)
    requires CanMove(v, move) && !move.SendsFirst? && OnlyAbout(v, r) && WorkerOf(move) != Timer
    ensures var v', w := Make(c, v, move).call, WorkerOf(move);
            w in v'.blocks ==> SaysOnly(v'.blocks[w].incoming, r.info)
  {
  }

  lemma TimerBlockKeepsRequest(c: CallId, v: Call, move: Move, r: Request)
    requires CanMove(v, move) && !move.SendsFirst? && OnlyAbout(v, r) && WorkerOf(move) == Timer
    ensures var v' := Make(c, v, move).call; Timer in v'.blocks ==> SaysOnly(v'.blocks[Timer].incoming, r.info)
  {
    if move.CancelsPushOfLeg? {
      CancellingKeepsRequest(c, v, r);
    } else if !move.Leaves? {
      PhasesSayNothing(c, v, move);
    }
  }

  /** No phase of the timer thread but the last one is going to write the push. */
  lemma PhasesSayNothing(c: CallId, v: Call, move: Move)
    requires CanMove(v, move) && WorkerOf(move) == Timer && !move.CancelsPushOfLeg? && !move.Leaves?
    ensures var v' := Make(c, v, move).call;
            Timer in v'.blocks ==>
              v'.blocks[Timer].incoming.None? || (Timer in v.blocks && v'.blocks[Timer] == v.blocks[Timer])
  {
  }

  lemma CancellingKeepsRequest(c: CallId, v: Call, r: Request)
    requires CanMove(v, CancelsPushOfLeg) && OnlyAbout(v, r)
    ensures SaysOnly(Make(c, v, CancelsPushOfLeg).call.blocks[Timer].incoming, r.info)
  {
  }

  lemma MovesKeepRequest(c: CallId, v: Call, move: Move, r: Request)
    requires CanMove(v, move) && v.requested && OnlyAbout(v, r)
    ensures OnlyAbout(Make(c, v, move).call, r)
  {
    var v' := Make(c, v, move).call;
    SendKeepsRequest(c, v, move);
    RingTimeKeepsRequest(c, v, move);
    IncomingKeepsRequest(c, v, move);
    OwnBlockKeepsRequest(c, v, move, r);
    forall w | w in v'.blocks ensures SaysOnly(v'.blocks[w].incoming, r.info) {
      if w != WorkerOf(move) {
        OtherBlocksStay(c, v, move, w);
      }
    }
  }

  lemma RequestIsAbout(c: CallId, k: Known, r: Request)
    requires Base(c, k) && !k.v.requested
    ensures OnlyAbout(Make(c, k.v, SendsFirst(r.info, r.ringTime)).call, r)
  {
  }

  /** A request is what makes a call requested, once. */
  lemma RequestedBy(c: CallId, v: Call, move: Move)
    requires CanMove(v, move)
    ensures Make(c, v, move).call.requested <==> v.requested || move.SendsFirst?
    ensures move.SendsFirst? ==> !v.requested
  {
  }

  /** A step leaves a call as it is, or moves it. */
  lemma StepMovesCall(run: Run, n: nat, c: CallId)
    requires run.Valid() && n < |run.steps|
    ensures var v, v' := CallOf(run.states[n], c), CallOf(run.states[n + 1], c);
            match MoveOf(run.states[n], run.steps[n], c)
            case None => v' == v
            case Some(move) => CanMove(v, move) && v' == Make(c, v, move).call
  {
    OneStepIsMove(run, n, c);
  }

  /** What is known of a call is what was requested for it. */
  ghost predicate IsAsRequested(run: Run, n: nat, c: CallId, r: Request)
    requires n <= |run.steps| < |run.states|
  {
    CallOf(run.states[n], c).requested ==> WasRequested(run, n, c, r) && OnlyAbout(CallOf(run.states[n], c), r)
  }

  lemma StepKeepsRequest(run: Run, n: nat, c: CallId, r: Request) returns (r': Request)
    requires run.FromInitial() && n < |run.steps| && IsAsRequested(run, n, c, r)
    ensures IsAsRequested(run, n + 1, c, r')
  {
    var v, step := CallOf(run.states[n], c), run.steps[n];
    StepMovesCall(run, n, c);
    r' := r;
    match MoveOf(run.states[n], step, c)
    case None =>
    case Some(move) =>
      RequestedBy(c, v, move);
      if v.requested {
        MovesKeepRequest(c, v, move, r);
      } else if move.SendsFirst? {
        EveryCallIsSound(run, n, c);
        r' := Request(move.info, move.ringTime);
        RequestIsAbout(c, KnownAt(run, n, c), r');
        OnlyRequestsRequest(run.states[n], step, c);
        assert RequestedAt(run, n, c, r');
      }
  }

  lemma OnlyRequestsRequest(s: State, step: Step, c: CallId)
    requires MoveOf(s, step, c).Some? && MoveOf(s, step, c).value.SendsFirst?
    ensures step == OnCall(c, MoveOf(s, step, c).value)
  {
  }

  /** Everything that is known of the push of a call is what was requested: its content in every dictionary, block
      and effect, and the ring time. */
  lemma {:induction false} PushIsRequested(run: Run, n: nat, c: CallId) returns (r: Request)
    requires run.FromInitial() && n < |run.states|
    ensures IsAsRequested(run, n, c, r)
  {
    r := Request(PushInfo("", "", "", ""), 0);
    if n > 0 {
      r := PushIsRequested(run, n - 1, c);
      r := StepKeepsRequest(run, n - 1, c, r);
    }
  }

  /** Whatever is pushed, and whatever push is cancelled, is the one that was requested. */
  lemma SentIsRequested(run: Run, n: nat, c: CallId, info: PushInfo)
    requires run.FromInitial() && n < |run.states|
    requires run.states[n].history.trace.Has(PushSent(c, info))
        || run.states[n].history.trace.Has(PushCancelSent(c, info))
    ensures exists r: Request :: r.info == info && WasRequested(run, n, c, r)
  {
    var e := if run.states[n].history.trace.Has(PushSent(c, info)) then PushSent(c, info) else PushCancelSent(c, info);
    EffectsHaveReasons(run, n, e);
    var k :| 0 <= k < n && HasReason(run, k, e);
    assert run.IsStep(k);
    EveryCallIsSound(run, k, c);
    var r := PushIsRequested(run, k, c);
    SentIsKnown(run.states[k], run.steps[k], c, info);
    assert WasRequested(run, n, c, r);
  }

  lemma SentIsKnown(s: State, step: Step, c: CallId, info: PushInfo)
    requires Enabled(s, step) && (Reason(s, step, PushSent(c, info)) || Reason(s, step, PushCancelSent(c, info)))
    requires Base(c, KnownOf(s, c))
    ensures CallOf(s, c).requested && (CallOf(s, c).send == Some(info) || InfoOf(CallOf(s, c).incoming) == Some(info))
  {
  }

  function InfoOf(i: Option<IncomingCall>): Option<PushInfo>
  {
    if i.Some? then Some(i.value.info) else None
  }

  // ---- Where a leg comes from ----

  /** The timer thread makes this move of the call at this step. */
  predicate MovesAt(run: Run, k: nat, c: CallId, move: Move)
    requires k < |run.steps|
  {
    run.steps[k] == OnCall(c, move)
  }

  /** The fallback was triggered from Pending. */
  predicate TriggeredAt(run: Run, h: nat, c: CallId)
    requires h < |run.steps| < |run.states|
  {
    MovesAt(run, h, c, Triggers) && CallOf(run.states[h], c).fallback == Some(FallbackPending)
  }

  /** The push was read, it was live, and the user could be reached by the fallback. */
  predicate ReadAt(run: Run, i: nat, c: CallId, info: PushInfo)
    requires i < |run.steps| < |run.states|
  {
    && MovesAt(run, i, c, ReadsPush(true))
    && (CallOf(run.states[i], c).incoming == Some(Pending(info))
           || CallOf(run.states[i], c).incoming == Some(Notified(info)))
  }

  /** The bridge of the call was found, and its caller. */
  predicate FoundAt(run: Run, j: nat, c: CallId, b: BridgeId, caller: ChannelId)
    requires j < |run.steps| < |run.states|
  {
    && MovesAt(run, j, c, FindsBridge(Some((b, caller))))
    && Get(run.states[j].bridges.byOrigin, c) == Some(b) && Get(run.states[j].bridges.callerLeg, b) == Some(caller)
  }

  ghost predicate WasTriggered(run: Run, n: nat, c: CallId)
    requires n <= |run.steps| < |run.states|
  {
    exists h :: 0 <= h < n && TriggeredAt(run, h, c)
  }

  ghost predicate WasRead(run: Run, n: nat, c: CallId, info: PushInfo)
    requires n <= |run.steps| < |run.states|
  {
    exists i :: 0 <= i < n && ReadAt(run, i, c, info) && WasTriggered(run, i, c)
  }

  ghost predicate WasFound(run: Run, n: nat, c: CallId, info: PushInfo, b: BridgeId, caller: ChannelId)
    requires n <= |run.steps| < |run.states|
  {
    exists j :: 0 <= j < n && FoundAt(run, j, c, b, caller) && WasRead(run, j, c, info)
  }

  /** How the timer thread got where it is. */
  ghost predicate TimerHasReasons(run: Run, n: nat, c: CallId, timer: Option<TimerPc>)
    requires n <= |run.steps| < |run.states|
  {
    match timer
    case Some(ReadPush) => WasTriggered(run, n, c)
    case Some(FindBridge(info)) => WasRead(run, n, c, info)
    case Some(Commit(info, b, caller)) => WasFound(run, n, c, info, b, caller)
    case _ => true
  }

  lemma TimerWaits(run: Run, n: nat, c: CallId, timer: Option<TimerPc>)
    requires n < |run.steps| < |run.states| && TimerHasReasons(run, n, c, timer)
    ensures TimerHasReasons(run, n + 1, c, timer)
  {
  }

  /** What a move does to the timer thread, where it matters for a leg. */
  lemma TimerAfter(c: CallId, v: Call, move: Move)
    requires CanMove(v, move)
    ensures var timer := Make(c, v, move).call.timer;
            || timer == v.timer
            || (timer.Some? && !timer.value.ReadPush? && !timer.value.FindBridge? && !timer.value.Commit?)
            || (move.Triggers? && timer == Some(ReadPush) && v.fallback == Some(FallbackPending))
            || (move == ReadsPush(true) && v.timer == Some(ReadPush) && v.incoming.Some? && !v.incoming.value.Terminal()
                && timer == Some(FindBridge(v.incoming.value.info)))
            || (move.FindsBridge? && move.found.Some? && v.timer.Some? && v.timer.value.FindBridge?
                && timer == Some(Commit(v.timer.value.info, move.found.value.0, move.found.value.1)))
  {
  }

  lemma TimerGoesOn(run: Run, n: nat, c: CallId)
    requires run.Valid() && n < |run.steps| && TimerHasReasons(run, n, c, CallOf(run.states[n], c).timer)
    ensures TimerHasReasons(run, n + 1, c, CallOf(run.states[n + 1], c).timer)
  {
    var s, v := run.states[n], CallOf(run.states[n], c);
    StepMovesCall(run, n, c);
    TimerWaits(run, n, c, v.timer);
    match MoveOf(s, run.steps[n], c)
    case None =>
    case Some(move) =>
      TimerAfter(c, v, move);
      assert run.IsStep(n);
      OnlyTheTimerMoves(s, run.steps[n], c);
      if move.Triggers? {
        assert v.fallback == Some(FallbackPending) ==> TriggeredAt(run, n, c);
      } else if move == ReadsPush(true) && v.incoming.Some? && !v.incoming.value.Terminal() {
        assert ReadAt(run, n, c, v.incoming.value.info);
      } else if move.FindsBridge? && move.found.Some? {
        assert FoundAt(run, n, c, move.found.value.0, move.found.value.1);
      }
  }

  /** The timer thread alone makes these moves, and finds what the dictionaries say. */
  lemma OnlyTheTimerMoves(s: State, step: Step, c: CallId)
    requires Enabled(s, step) && MoveOf(s, step, c).Some?
    ensures var move := MoveOf(s, step, c).value;
            && (move.Triggers? || move.ReadsPush? || move.FindsBridge? ==> step == OnCall(c, move))
            && (move.FindsBridge? && move.found.Some? ==>
                  && Get(s.bridges.byOrigin, c) == Some(move.found.value.0)
                  && Get(s.bridges.callerLeg, move.found.value.0) == Some(move.found.value.1))
  {
  }

  lemma {:induction false} TimerCameThere(run: Run, n: nat, c: CallId)
    requires run.FromInitial() && n < |run.states|
    ensures TimerHasReasons(run, n, c, CallOf(run.states[n], c).timer)
  {
    if n > 0 {
      TimerCameThere(run, n - 1, c);
      TimerGoesOn(run, n - 1, c);
    }
  }

  /** The leg was originated at this step, from a fallback that was still Triggering. */
  predicate OriginatedAt(run: Run, k: nat, c: CallId, leg: ChannelId)
    requires k < |run.steps| < |run.states|
  {
    MovesAt(run, k, c, Originates(Some(leg))) && CallOf(run.states[k], c).fallback == Some(Triggering)
  }

  lemma OnlyTheTimerOriginates(s: State, step: Step, c: CallId, leg: ChannelId, b: BridgeId)
    requires Enabled(s, step) && Reason(s, step, LegOriginated(c, leg, b))
    ensures step == OnCall(c, Originates(Some(leg))) && CallOf(s, c).fallback == Some(Triggering)
    ensures CallOf(s, c).timer.Some? && CallOf(s, c).timer.value.Commit? && CallOf(s, c).timer.value.bridge == b
  {
  }

  /** Every leg of a run is originated from a fallback that was triggered from Pending, after its push was read
      Pending or Notified with a user who can be reached, in the bridge that was then found for its call, and while
      it was still Triggering; in this order. */
  lemma LegHasItsReasons(run: Run, n: nat, c: CallId, leg: ChannelId, b: BridgeId)
    requires run.FromInitial() && n < |run.states| && run.states[n].history.trace.Has(LegOriginated(c, leg, b))
    ensures exists k, info, caller :: 0 <= k < n && OriginatedAt(run, k, c, leg) && WasFound(run, k, c, info, b, caller)
  {
    EffectsHaveReasons(run, n, LegOriginated(c, leg, b));
    var k :| 0 <= k < n && HasReason(run, k, LegOriginated(c, leg, b));
    TimerCameThere(run, k, c);
    assert run.IsStep(k);
    OnlyTheTimerOriginates(run.states[k], run.steps[k], c, leg, b);
    var timer := CallOf(run.states[k], c).timer.value;
    assert OriginatedAt(run, k, c, leg) && WasFound(run, k, c, timer.info, b, timer.caller);
  }

  /** From a live push of a user who can be reached, with a bridge that is known and a lock that nobody holds, the
      timer thread can originate a leg, whatever its id, in that bridge. */
  lemma LivePushOriginates(s: State, c: CallId, leg: ChannelId) returns (s': State)
    requires CanMove(CallOf(s, c), ReadsPush(true)) && IsLive(CallOf(s, c)) && LockIsFree(CallOf(s, c))
    requires CallOf(s, c).fallback == Some(Triggering) && BridgeOf(s.bridges, c).Some?
    ensures Leads(Apply(s, OnCall(c, ReadsPush(true))), s')
    ensures s'.history.trace == Then(s.history.trace, LegOriginated(c, leg, BridgeOf(s.bridges, c).value.0))
  {
    var read := Apply(s, OnCall(c, ReadsPush(true)));
    MoveChanges(s, c, ReadsPush(true), c);
    LeadsHere(read);
    var found := MovesOn(read, read, c, FindsBridge(BridgeOf(s.bridges, c)));
    s' := MovesOn(read, found, c, Originates(Some(leg)));
  }

  /** The reading of the push decides: with the fallback triggered, the bridge known and the lock free, a leg can be
      originated afterwards exactly if the push was Pending or Notified and the user could be reached. */
  lemma ReadingDecides(run: Run, c: CallId, usable: bool)
    requires run.FromInitial() && Enabled(run.Last(), OnCall(c, ReadsPush(usable))) && LockIsFree(CallOf(run.Last(), c))
    requires c in run.Last().calls.fallbacks && run.Last().calls.fallbacks[c].Triggering?
    requires BridgeOf(run.Last().bridges, c).Some?
    ensures (exists s' :: Leads(Apply(run.Last(), OnCall(c, ReadsPush(usable))), s')
                          && Log(s'.history.trace, LegOf(c)) != Empty)
        <==> usable && c in run.Last().calls.incoming && !run.Last().calls.incoming[c].Terminal()
  {
    var s, step := run.Last(), OnCall(c, ReadsPush(usable));
    EveryCallIsSound(run, |run.steps|, c);
    MoveChanges(s, c, ReadsPush(usable), c);
    if usable && IsLive(CallOf(s, c)) {
      var s' := LivePushOriginates(s, c, ChannelId("leg"));
    } else {
      ReadingGivesUp(c, KnownOf(s, c), usable);
      MovesKeepBase(c, KnownOf(s, c), ReadsPush(usable));
      forall s' | Leads(Apply(s, step), s') ensures Log(s'.history.trace, LegOf(c)) == Empty {
        LeadsKeepFacts(Apply(s, step), s', c, IsGivenUp);
      }
    }
  }
}
