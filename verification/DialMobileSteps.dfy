/** What a step of the whole service is for one call: one move, or nothing. */
module DialMobileSteps {
  import opened Wrappers
  import opened Identifiers
  import opened DialMobileModel
  import opened DialMobileCalls

  /** The move that a step makes on a call. */
  function MoveOf(s: State, step: Step, c: CallId): Option<Move>
  {
    var pc := s.threads.stasis;
    match step
    case OnCall(d, move) => if d == c then Some(move) else None
    case StasisLeaves => if s.threads.stasisBlock == Some(c) then Some(Leaves(Stasis)) else None
    case StartsJoin(channel, b) => if Get(s.bridges.origin, b) == Some(c) then Some(Joins(channel)) else None
    case RefusesPush => if pc.Refusing? && pc.call == Some(c) then Some(CancelsPush(Stasis)) else None
    case MarksGone(d) => if d == c && pc.Marking? then Some(Marks(pc.channel)) else None
    case StopsFallback => if Todo(s) == Some(c) && !AssertionFails(CallOf(s, c)) then Some(CancelsFallback(Stasis))
        else None
    case StopsPush => if Todo(s) == Some(c) then Some(CancelsPush(Stasis)) else None
    case Prunes => if pc.Popping? && pc.pruned == c && pc.pop.PopEntry? then Some(Pops(pc.pop.entry)) else None
    case ContactDialed(_, _) => None
    case Dials(_, _, _, _) => None
    case TakesDialer => None
    case Connects(_) => None
    case HearsGone(_) => None
    case CollectsGone(_) => None
  }

  /** The call of the dialer that is being removed. */
  function Todo(s: State): Option<CallId>
  {
    var pc := s.threads.stasis;
    if pc.Removing? && pc.todo != [] then Get(s.bridges.origin, pc.todo[0]) else None
  }

  lemma PutKeepsOthers(s: State, c: CallId, v: Call, d: CallId)
    ensures CallOf(PutCall(s, c, v), d) == if d == c then v else CallOf(s, d)
  {
  }

  predicate OwnEffect(c: CallId, effect: Option<Effect>)
  {
    effect.Some? ==> (effect.value.PushSent? || effect.value.PushCancelSent? || effect.value.LegOriginated?
        ==> effect.value.call == c)
  }

  lemma EffectsAreOwn(c: CallId, v: Call, move: Move)
    requires CanMove(v, move)
    ensures OwnEffect(c, Make(c, v, move).effect)
  {
  }

  lemma DoneChanges(s: State, c: CallId, did: Did, d: CallId)
    requires OwnEffect(c, did.effect)
    ensures KnownOf(Done(s, c, did), d) ==
            if d == c then Known(did.call, AddTo(KnownOf(s, c).pushes, did.effect, PushOf(c)),
                AddTo(KnownOf(s, c).legs, did.effect, LegOf(c)))
            else KnownOf(s, d)
  {
    PutKeepsOthers(if did.effect.Some? then Emit(s, did.effect.value) else s, c, did.call, d);
  }

  /** A move changes what is known of its call, and of no other. */
  lemma MoveChanges(s: State, c: CallId, move: Move, d: CallId)
    requires CanMove(CallOf(s, c), move)
    ensures var s' := Done(s, c, Make(c, CallOf(s, c), move));
            KnownOf(s', d) == if d == c then After(c, KnownOf(s, c), move) else KnownOf(s, d)
  {
    EffectsAreOwn(c, CallOf(s, c), move);
    DoneChanges(s, c, Make(c, CallOf(s, c), move), d);
  }

  /** Nothing about the call differs. */
  predicate SameCall(s: State, s': State, c: CallId) { KnownOf(s', c) == KnownOf(s, c) }

  lemma StasisMoveChanges(s: State, call: Option<CallId>, move: Move, d: CallId)
    requires CanStasisMove(s, call, move)
    ensures KnownOf(StasisMove(s, call, move), d) ==
            if call == Some(d) then After(d, KnownOf(s, d), move) else KnownOf(s, d)
  {
    if call.Some? {
      MoveChanges(s, call.value, move, d);
    }
  }

  lemma {:induction false} RefusalsAreSilent(trace: Trace, dialers: map<BridgeId, Dialer>, channel: ChannelId,
      order: seq<BridgeId>, topic: Topic)
    requires forall b :: b in order ==> b in dialers
    ensures Log(RefuseCallers(trace, dialers, channel, order), topic) == Log(trace, topic)
  {
    if order != [] {
      RefusalsAreSilent(trace, dialers, channel, order[..|order| - 1], topic);
    }
  }

  /** What the stasis steps that touch no call do to it. */
  lemma OtherStepsKeepCalls(s: State, step: Step, c: CallId)
    requires Enabled(s, step)
    requires step.ContactDialed? || step.Dials? || step.TakesDialer? || step.Connects? || step.HearsGone?
        || step.CollectsGone?
    ensures SameCall(s, Apply(s, step), c)
  {
    if step.CollectsGone? {
      RefusalsAreSilent(s.history.trace, s.bridges.dialers, s.threads.stasis.channel, step.order, PushOf(c));
      RefusalsAreSilent(s.history.trace, s.bridges.dialers, s.threads.stasis.channel, step.order, LegOf(c));
    }
  }

  ghost predicate IsMove(s: State, step: Step, c: CallId, s': State)
  {
    match MoveOf(s, step, c)
    case None => SameCall(s, s', c)
    case Some(move) => CanMove(CallOf(s, c), move) && KnownOf(s', c) == After(c, KnownOf(s, c), move)
  }

  lemma StasisStepIsMove(s: State, step: Step, c: CallId)
    requires Enabled(s, step) && (step.StartsJoin? || step.RefusesPush? || step.StopsFallback? || step.StopsPush?)
    ensures IsMove(s, step, c, Apply(s, step))
  {
    var pc := s.threads.stasis;
    match step
    case StartsJoin(channel, b) => StasisMoveChanges(s, Get(s.bridges.origin, b), Joins(channel), c);
    case RefusesPush => StasisMoveChanges(s, pc.call, CancelsPush(Stasis), c);
    case StopsFallback => StasisMoveChanges(s, Get(s.bridges.origin, pc.todo[0]), CancelsFallback(Stasis), c);
    case StopsPush => StasisMoveChanges(s, Get(s.bridges.origin, pc.todo[0]), CancelsPush(Stasis), c);
  }

  lemma SingleStepIsMove(s: State, step: Step, c: CallId)
    requires Enabled(s, step) && (step.OnCall? || step.StasisLeaves? || step.MarksGone?)
    ensures IsMove(s, step, c, Apply(s, step))
  {
    match step
    case OnCall(d, move) => MoveChanges(s, d, move, c);
    case StasisLeaves => MoveChanges(s, s.threads.stasisBlock.value, Leaves(Stasis), c);
    case MarksGone(d) => MoveChanges(s, d, Marks(s.threads.stasis.channel), c);
  }

  lemma PruneIsMove(s: State, step: Step, c: CallId)
    requires Enabled(s, step) && step.Prunes?
    ensures IsMove(s, step, c, Apply(s, step))
  {
    var pc := s.threads.stasis;
    if pc.Popping? && pc.pop.PopEntry? {
      MoveChanges(s, pc.pruned, Pops(pc.pop.entry), c);
    }
  }

  /** Every step is, for every call, the move it makes on it, or nothing. */
  lemma StepIsMove(s: State, step: Step, c: CallId)
    requires Enabled(s, step)
    ensures IsMove(s, step, c, Apply(s, step))
  {
    if step.OnCall? || step.StasisLeaves? || step.MarksGone? {
      SingleStepIsMove(s, step, c);
    } else if step.Prunes? {
      PruneIsMove(s, step, c);
    } else if step.StartsJoin? || step.RefusesPush? || step.StopsFallback? || step.StopsPush? {
      StasisStepIsMove(s, step, c);
    } else {
      OtherStepsKeepCalls(s, step, c);
    }
  }
}
