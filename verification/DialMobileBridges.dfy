/** The dictionaries about future bridges: how they agree at every step, that each bridge is created at
    most once, and what a late join does. */
module DialMobileBridges {
  import opened Wrappers
  import opened Identifiers
  import opened DialMobileModel

  /** The bridge whose dialer the stasis thread took out of the maps but whose origin it has not popped yet. */
  function Leaving(pc: StasisPc): set<BridgeId>
  {
    match pc
    case Stopping(_, b, _) => {b}
    case Refusing(b, _) => {b}
    case Pruning(b, _) => {b}
    case Removing(todo, StopPush) => if todo != [] then {todo[0]} else {}
    case _ => {}
  }

  /** The bridge whose origin is popped, and whose caller is not yet. */
  function HalfPopped(pc: StasisPc): set<BridgeId>
  {
    match pc
    case Popping(b, _, _, _) => {b}
    case Closing(b, _) => {b}
    case _ => {}
  }

  /** The call whose bridge is about to be popped. */
  function PoppedNext(pc: StasisPc): Option<CallId>
  {
    match pc
    case Popping(_, c, PopBridge, _) => Some(c)
    case _ => None
  }

  /** The maps between bridges, callers and origin calls agree, but for what the stasis thread is busy with. */
  ghost predicate MapsAgree(m: BridgeMaps, pc: StasisPc)
  {
    && m.callerLeg.Keys == m.origin.Keys + HalfPopped(pc) && m.origin.Keys !! HalfPopped(pc)
    && Leaving(pc) <= m.origin.Keys
    && m.dialers.Keys <= m.origin.Keys - Leaving(pc)
    && (forall c :: c in m.byOrigin ==>
          || (m.byOrigin[c] in m.origin && m.origin[m.byOrigin[c]] == c)
          || (PoppedNext(pc) == Some(c) && m.byOrigin[c] in HalfPopped(pc)))
    && (forall b :: b in m.dialers ==> m.dialers[b].caller == m.callerLeg[b])
  }

  /** `_dialers_by_aor` holds exactly the dialers in the map, each under its own AOR, and no empty set. */
  ghost predicate AorsAgree(m: BridgeMaps)
  {
    && (forall a :: a in m.byAor ==> m.byAor[a] != {})
    && (forall a, b :: b in DialersOf(m, a) <==> b in m.dialers && m.dialers[b].aor == a)
  }

  predicate Different<T(==)>(q: seq<T>)
  {
    forall i, j :: 0 <= i < j < |q| ==> q[i] != q[j]
  }

  /** The dialers that are still to be removed are there. */
  predicate AreDialers(m: BridgeMaps, next: seq<BridgeId>)
  {
    Different(next) && forall b :: b in next ==> b in m.dialers
  }

  /** What the stasis thread carries along still describes the maps. */
  ghost predicate StasisAgrees(m: BridgeMaps, pc: StasisPc)
  {
    match pc
    case Joining(_, b, call) => call == Get(m.origin, b)
    case Stopping(_, b, call) => call == Get(m.origin, b)
    case Refusing(b, call) => call == Get(m.origin, b)
    case Pruning(_, next) => AreDialers(m, next)
    case Popping(_, c, pop, next) => AreDialers(m, next) && (pop.PopEntry? ==> c !in m.byOrigin)
    case Closing(_, next) => AreDialers(m, next)
    case Removing(todo, stage) => todo != [] && AreDialers(m, if stage.StopPush? then todo[1..] else todo)
    case _ => true
  }

  /** A created bridge is created once, and its entries are gone or the next to go. */
  ghost predicate CreationAgrees(s: State, b: BridgeId)
  {
    var log := Log(s.history.trace, CreationOf(b));
    && (log != Empty ==>
          && log.past == Empty && b in s.history.dialed
          && (b !in s.bridges.origin || (s.threads.stasis.Pruning? && s.threads.stasis.bridge == b)))
    && (b in s.bridges.origin ==> b in s.history.dialed)
  }

  ghost predicate Coherent(s: State)
  {
    && MapsAgree(s.bridges, s.threads.stasis)
    && AorsAgree(s.bridges)
    && StasisAgrees(s.bridges, s.threads.stasis)
    && (forall b :: CreationAgrees(s, b))
  }

  /** Nothing about bridges differs. */
  ghost predicate SameBridges(s: State, s': State)
  {
    && s'.bridges == s.bridges
    && s'.history.dialed == s.history.dialed
    && (forall b :: Log(s'.history.trace, CreationOf(b)) == Log(s.history.trace, CreationOf(b)))
  }

  lemma MovesCreateNoBridge(c: CallId, v: Call, move: Move, b: BridgeId)
    requires CanMove(v, move)
    ensures var e := Make(c, v, move).effect; e.Some? ==> !About(e.value, CreationOf(b))
  {
  }

  lemma MoveKeepsBridges(s: State, c: CallId, move: Move)
    requires CanMove(CallOf(s, c), move)
    ensures var s' := Done(s, c, Make(c, CallOf(s, c), move));
            SameBridges(s, s') && s'.threads.stasis == s.threads.stasis
  {
    forall b ensures Log(Done(s, c, Make(c, CallOf(s, c), move)).history.trace, CreationOf(b))
        == Log(s.history.trace, CreationOf(b)) {
      MovesCreateNoBridge(c, CallOf(s, c), move, b);
    }
  }

  lemma StasisMoveKeepsBridges(s: State, call: Option<CallId>, move: Move)
    requires CanStasisMove(s, call, move)
    ensures SameBridges(s, StasisMove(s, call, move)) && StasisMove(s, call, move).threads.stasis == s.threads.stasis
  {
    if call.Some? {
      MoveKeepsBridges(s, call.value, move);
    }
  }

  lemma SameBridgesCoherent(s: State, s': State)
    requires Coherent(s) && SameBridges(s, s') && s'.threads.stasis == s.threads.stasis
    ensures Coherent(s')
  {
    forall b ensures CreationAgrees(s', b) {
      assert CreationAgrees(s, b);
    }
  }

  lemma DialingAgrees(m: BridgeMaps, caller: ChannelId, origin: CallId, aor: Aor, b: BridgeId)
    requires AorsAgree(m) && b !in m.dialers
    ensures AorsAgree(AddDialer(m, caller, origin, aor, b))
  {
    var m' := AddDialer(m, caller, origin, aor, b);
    forall a ensures DialersOf(m', a) == DialersOf(m, a) + (if a == aor then {b} else {}) {
    }
    forall a | a in m'.byAor ensures m'.byAor[a] != {} {
      assert a != aor ==> a in m.byAor && m.byAor[a] != {};
      assert a == aor ==> b in m'.byAor[a];
    }
  }

  lemma DialIsCoherent(s: State, caller: ChannelId, origin: CallId, aor: Aor, b: BridgeId)
    requires Coherent(s) && s.threads.stasis.Idle? && b !in s.history.dialed
    ensures Coherent(Dial(s, caller, origin, aor, b))
  {
    var s' := Dial(s, caller, origin, aor, b);
    assert CreationAgrees(s, b);
    assert b !in s.bridges.origin;
    DialingAgrees(s.bridges, caller, origin, aor, b);
    forall d ensures CreationAgrees(s', d) {
      assert CreationAgrees(s, d);
    }
  }

  lemma DropDialerAgrees(m: BridgeMaps, b: BridgeId)
    requires AorsAgree(m)
    ensures AorsAgree(DropDialer(m, b))
  {
    forall a ensures DialersOf(DropDialer(m, b), a) == DialersOf(m, a) - {b} {
    }
  }

  /** The other maps have nothing to do with the AORs. */
  lemma SameDialersAgree(m: BridgeMaps, m': BridgeMaps)
    requires AorsAgree(m) && m'.dialers == m.dialers && m'.byAor == m.byAor
    ensures AorsAgree(m')
  {
    assert forall a :: DialersOf(m', a) == DialersOf(m, a);
  }

  /** Moving the stasis thread on keeps the maps coherent when it is busy with the same bridge. */
  lemma ChangeStasis(s: State, pc: StasisPc)
    requires Coherent(s) && Leaving(s.threads.stasis) == Leaving(pc) && HalfPopped(s.threads.stasis) == HalfPopped(pc)
    requires PoppedNext(s.threads.stasis) == None && StasisAgrees(s.bridges, pc)
    requires s.threads.stasis.Pruning? ==> pc == s.threads.stasis
    ensures Coherent(SetStasis(s, pc))
  {
    forall b ensures CreationAgrees(SetStasis(s, pc), b) {
      assert CreationAgrees(s, b);
    }
  }

  lemma JoinHeadIsCoherent(s: State, channel: ChannelId, b: BridgeId)
    requires Coherent(s) && Enabled(s, StartsJoin(channel, b))
    ensures Coherent(JoinHead(s, channel, b))
  {
    var call := Get(s.bridges.origin, b);
    StasisMoveKeepsBridges(s, call, Joins(channel));
    SameBridgesCoherent(s, StasisMove(s, call, Joins(channel)));
    ChangeStasis(StasisMove(s, call, Joins(channel)), Joining(channel, b, call));
  }

  lemma JoinTakeIsCoherent(s: State)
    requires Coherent(s) && s.threads.stasis.Joining?
    ensures var pc := s.threads.stasis; Coherent(JoinTake(s, pc.channel, pc.bridge, pc.call))
  {
    var pc := s.threads.stasis;
    var s' := JoinTake(s, pc.channel, pc.bridge, pc.call);
    forall b ensures CreationAgrees(s', b) {
      assert CreationAgrees(s, b);
    }
    if pc.bridge in s.bridges.dialers {
      DropDialerAgrees(s.bridges, pc.bridge);
    }
  }

  /** Bridging creates the joined bridge at most once and no other. */
  lemma JoinConnectIsCoherent(s: State, outcome: JoinOutcome)
    requires Coherent(s) && s.threads.stasis.Stopping? && s.threads.stasis.bridge in s.bridges.callerLeg
    ensures var pc := s.threads.stasis; Coherent(JoinConnect(s, pc.channel, pc.bridge, pc.call, outcome))
  {
    var pc := s.threads.stasis;
    var s' := JoinConnect(s, pc.channel, pc.bridge, pc.call, outcome);
    forall b ensures CreationAgrees(s', b) {
      assert CreationAgrees(s, b);
    }
  }

  lemma RefuseIsCoherent(s: State)
    requires Coherent(s) && Enabled(s, RefusesPush)
    ensures Coherent(Apply(s, RefusesPush))
  {
    var pc := s.threads.stasis;
    StasisMoveKeepsBridges(s, pc.call, CancelsPush(Stasis));
    SameBridgesCoherent(s, StasisMove(s, pc.call, CancelsPush(Stasis)));
    ChangeStasis(StasisMove(s, pc.call, CancelsPush(Stasis)), Pruning(pc.bridge, []));
  }

  // ---- A prune, pop by pop ----

  lemma LookupIsCoherent(s: State)
    requires Coherent(s) && s.threads.stasis.Pruning?
    ensures Coherent(PopNext(s))
  {
    SameDialersAgree(s.bridges, PopNext(s).bridges);
    forall b ensures CreationAgrees(PopNext(s), b) {
      assert CreationAgrees(s, b);
    }
  }

  lemma PopBridgeIsCoherent(s: State)
    requires Coherent(s) && s.threads.stasis.Popping? && s.threads.stasis.pop.PopBridge?
    ensures Coherent(PopNext(s))
  {
    SameDialersAgree(s.bridges, PopNext(s).bridges);
    forall b ensures CreationAgrees(PopNext(s), b) {
      assert CreationAgrees(s, b);
    }
  }

  lemma PopEntryIsCoherent(s: State)
    requires Coherent(s) && s.threads.stasis.Popping? && s.threads.stasis.pop.PopEntry?
    ensures Coherent(PopNext(s))
  {
    var pc := s.threads.stasis;
    var popped := Done(s, pc.pruned, Make(pc.pruned, CallOf(s, pc.pruned), Pops(pc.pop.entry)));
    MoveKeepsBridges(s, pc.pruned, Pops(pc.pop.entry));
    SameBridgesCoherent(s, popped);
    ChangeStasis(popped, AfterPop(pc.bridge, pc.pruned, pc.pop.entry, pc.next));
  }

  lemma ClosingIsCoherent(s: State)
    requires Coherent(s) && s.threads.stasis.Closing?
    ensures Coherent(PopNext(s))
  {
    SameDialersAgree(s.bridges, PopNext(s).bridges);
    forall b ensures CreationAgrees(PopNext(s), b) {
      assert CreationAgrees(s, b);
    }
  }

  lemma PruneIsCoherent(s: State)
    requires Coherent(s) && Enabled(s, Prunes)
    ensures Coherent(Apply(s, Prunes))
  {
    match s.threads.stasis
    case Pruning(_, _) => LookupIsCoherent(s);
    case Popping(_, _, PopBridge, _) => PopBridgeIsCoherent(s);
    case Popping(_, _, PopEntry(_), _) => PopEntryIsCoherent(s);
    case Closing(_, _) => ClosingIsCoherent(s);
  }

  lemma GoneStartIsCoherent(s: State, channel: ChannelId)
    requires Coherent(s) && s.threads.stasis.Idle?
    ensures Coherent(GoneStart(s, channel))
  {
    forall b ensures CreationAgrees(GoneStart(s, channel), b) {
      assert CreationAgrees(s, b);
    }
  }

  lemma GoneMarkIsCoherent(s: State, c: CallId)
    requires Coherent(s) && Enabled(s, MarksGone(c))
    ensures Coherent(Apply(s, MarksGone(c)))
  {
    var pc := s.threads.stasis;
    var marked := Done(s, c, Make(c, CallOf(s, c), Marks(pc.channel)));
    MoveKeepsBridges(s, c, Marks(pc.channel));
    SameBridgesCoherent(s, marked);
    ChangeStasis(marked, Marking(pc.channel, pc.calls - {c}));
  }

  lemma {:induction false} RefusalsCreateNothing(trace: Trace, dialers: map<BridgeId, Dialer>, channel: ChannelId,
      order: seq<BridgeId>)
    requires forall b :: b in order ==> b in dialers
    ensures forall b :: Log(RefuseCallers(trace, dialers, channel, order), CreationOf(b)) == Log(trace, CreationOf(b))
  {
    if order != [] {
      RefusalsCreateNothing(trace, dialers, channel, order[..|order| - 1]);
    }
  }

  lemma GoneCollectIsCoherent(s: State, order: seq<BridgeId>)
    requires Coherent(s) && Enabled(s, CollectsGone(order))
    ensures Coherent(Apply(s, CollectsGone(order)))
  {
    var s' := Apply(s, CollectsGone(order));
    RefusalsCreateNothing(s.history.trace, s.bridges.dialers, s.threads.stasis.channel, order);
    forall b ensures CreationAgrees(s', b) {
      assert CreationAgrees(s, b);
    }
    assert forall b :: b in order ==> b in s.bridges.dialers;
  }

  lemma DroppingIsCoherent(s: State, pc: StasisPc)
    requires Coherent(s) && s.threads.stasis.Removing? && s.threads.stasis.stage.StopFallback?
        && s.threads.stasis.todo != []
    requires pc == Idle || pc == Removing(s.threads.stasis.todo, StopPush)
    ensures Coherent(SetStasis(s.(bridges := DropDialer(s.bridges, s.threads.stasis.todo[0])), pc))
  {
    var todo := s.threads.stasis.todo;
    var s' := SetStasis(s.(bridges := DropDialer(s.bridges, todo[0])), pc);
    DropDialerAgrees(s.bridges, todo[0]);
    assert todo[0] in s.bridges.dialers;
    assert forall b :: b in todo[1..] ==> b in todo && b != todo[0];
    forall b ensures CreationAgrees(s', b) {
      assert CreationAgrees(s, b);
    }
  }

  lemma RemoveFallbackIsCoherent(s: State)
    requires Coherent(s) && Enabled(s, StopsFallback)
    ensures Coherent(Apply(s, StopsFallback))
  {
    var todo := s.threads.stasis.todo;
    if RemovalFails(s, todo[0]) {
      DroppingIsCoherent(s, Idle);
    } else {
      var moved := StasisMove(s, Get(s.bridges.origin, todo[0]), CancelsFallback(Stasis));
      StasisMoveKeepsBridges(s, Get(s.bridges.origin, todo[0]), CancelsFallback(Stasis));
      SameBridgesCoherent(s, moved);
      DroppingIsCoherent(moved, Removing(todo, StopPush));
    }
  }

  lemma RemovePushIsCoherent(s: State)
    requires Coherent(s) && Enabled(s, StopsPush)
    ensures Coherent(Apply(s, StopsPush))
  {
    var todo := s.threads.stasis.todo;
    var call := Get(s.bridges.origin, todo[0]);
    StasisMoveKeepsBridges(s, call, CancelsPush(Stasis));
    SameBridgesCoherent(s, StasisMove(s, call, CancelsPush(Stasis)));
    ChangeStasis(StasisMove(s, call, CancelsPush(Stasis)), Pruning(todo[0], todo[1..]));
  }

  lemma LeaveIsCoherent(s: State, step: Step)
    requires Coherent(s) && Enabled(s, step) && (step.OnCall? || step.StasisLeaves?)
    ensures Coherent(Apply(s, step))
  {
    if step.OnCall? {
      MoveKeepsBridges(s, step.call, step.move);
    } else {
      MoveKeepsBridges(s, s.threads.stasisBlock.value, Leaves(Stasis));
    }
    SameBridgesCoherent(s, Apply(s, step));
  }

  lemma GoneStepIsCoherent(s: State, step: Step)
    requires Coherent(s) && Enabled(s, step)
    requires step.HearsGone? || step.MarksGone? || step.CollectsGone? || step.StopsFallback? || step.StopsPush?
    ensures Coherent(Apply(s, step))
  {
    match step
    case HearsGone(channel) => GoneStartIsCoherent(s, channel);
    case MarksGone(c) => GoneMarkIsCoherent(s, c);
    case CollectsGone(order) => GoneCollectIsCoherent(s, order);
    case StopsFallback => RemoveFallbackIsCoherent(s);
    case StopsPush => RemovePushIsCoherent(s);
  }

  lemma JoinStepIsCoherent(s: State, step: Step)
    requires Coherent(s) && Enabled(s, step)
    requires step.StartsJoin? || step.TakesDialer? || step.Connects? || step.RefusesPush?
    ensures Coherent(Apply(s, step))
  {
    match step
    case StartsJoin(channel, b) => JoinHeadIsCoherent(s, channel, b);
    case TakesDialer => JoinTakeIsCoherent(s);
    case Connects(outcome) => JoinConnectIsCoherent(s, outcome);
    case RefusesPush => RefuseIsCoherent(s);
  }

  lemma DialStepIsCoherent(s: State, step: Step)
    requires Coherent(s) && Enabled(s, step) && step.Dials?
    ensures Coherent(Apply(s, step))
  {
    DialIsCoherent(s, step.caller, step.origin, step.aor, step.bridge);
  }

  lemma ContactIsCoherent(s: State, step: Step)
    requires Coherent(s) && Enabled(s, step) && step.ContactDialed?
    ensures Coherent(Apply(s, step))
  {
    forall b ensures CreationAgrees(Apply(s, step), b) {
      assert CreationAgrees(s, b);
    }
  }

  /** Every step keeps the bridge dictionaries coherent. */
  lemma StepIsCoherent(s: State, step: Step)
    requires Coherent(s) && Enabled(s, step)
    ensures Coherent(Apply(s, step))
  {
    if step.OnCall? || step.StasisLeaves? {
      LeaveIsCoherent(s, step);
    } else if step.ContactDialed? {
      ContactIsCoherent(s, step);
    } else if step.Dials? {
      DialStepIsCoherent(s, step);
    } else if step.StartsJoin? || step.TakesDialer? || step.Connects? || step.RefusesPush? {
      JoinStepIsCoherent(s, step);
    } else if step.Prunes? {
      PruneIsCoherent(s);
    } else {
      GoneStepIsCoherent(s, step);
    }
  }

  // ---- Runs ----

  lemma {:induction false} RunIsCoherent(run: Run, i: nat)
    requires run.FromInitial() && i < |run.states|
    ensures Coherent(run.states[i])
  {
    if i == 0 {
      assert forall b :: CreationAgrees(Initial, b);
    } else {
      RunIsCoherent(run, i - 1);
      assert run.IsStep(i - 1);
      StepIsCoherent(run.states[i - 1], run.steps[i - 1]);
    }
  }

  lemma OriginMapsChange(s: State, step: Step)
    requires Enabled(s, step) && !step.Dials? && !step.Prunes?
    ensures var s' := Apply(s, step);
            s'.bridges.origin == s.bridges.origin && s'.bridges.byOrigin == s.bridges.byOrigin
    ensures PoppedNext(Apply(s, step).threads.stasis) == PoppedNext(s.threads.stasis)
  {
    match step
    case OnCall(c, move) => OtherMapsChange(s, c, move);
    case StartsJoin(channel, b) => StasisMoveKeepsBridges(s, Get(s.bridges.origin, b), Joins(channel));
    case RefusesPush => StasisMoveKeepsBridges(s, s.threads.stasis.call, CancelsPush(Stasis));
    case StopsFallback => StoppingKeepsOrigins(s);
    case StopsPush => StasisMoveKeepsBridges(s, Get(s.bridges.origin, s.threads.stasis.todo[0]), CancelsPush(Stasis));
    case _ =>
  }

  lemma StoppingKeepsOrigins(s: State)
    requires Enabled(s, StopsFallback)
    ensures var s' := Apply(s, StopsFallback);
            && s'.bridges.origin == s.bridges.origin && s'.bridges.byOrigin == s.bridges.byOrigin
            && PoppedNext(s'.threads.stasis) == PoppedNext(s.threads.stasis)
  {
    StasisMoveKeepsBridges(s, Get(s.bridges.origin, s.threads.stasis.todo[0]), CancelsFallback(Stasis));
  }

  lemma OtherMapsChange(s: State, c: CallId, move: Move)
    requires Enabled(s, OnCall(c, move))
    ensures Apply(s, OnCall(c, move)).bridges == s.bridges
    ensures Apply(s, OnCall(c, move)).threads.stasis == s.threads.stasis
  {
    MoveKeepsBridges(s, c, move);
  }

  // ---- Dialers whose removal failed ----

  /** The assertion ends the removal of a dialer. */
  predicate Fails(s: State, step: Step)
  {
    var pc := s.threads.stasis;
    step.StopsFallback? && pc.Removing? && pc.todo != [] && RemovalFails(s, pc.todo[0])
  }

  /** The bridges whose dialers were taken out by a removal that then failed. */
  function Abandoned(run: Run, i: nat): set<BridgeId>
    requires run.Valid() && i < |run.states|
  {
    if i == 0 then {}
    else
      var s, step := run.states[i - 1], run.steps[i - 1];
      Abandoned(run, i - 1) + if Fails(s, step) then {s.threads.stasis.todo[0]} else {}
  }

  /** Every bridge that waits for a channel has its dialer, is being taken down, or was abandoned. */
  ghost predicate DialersComplete(s: State, abandoned: set<BridgeId>)
  {
    && abandoned <= s.bridges.origin.Keys && abandoned !! s.bridges.dialers.Keys
    && abandoned !! Leaving(s.threads.stasis)
    && s.bridges.origin.Keys == s.bridges.dialers.Keys + Leaving(s.threads.stasis) + abandoned
  }

  predicate ChangesDialers(step: Step) { step.Dials? || step.TakesDialer? || step.StopsFallback? || step.Prunes? }

  /** The other steps neither add nor take out a dialer, and the stasis thread stays with its bridge. */
  lemma OtherStepsComplete(s: State, step: Step, abandoned: set<BridgeId>)
    requires Coherent(s) && Enabled(s, step) && DialersComplete(s, abandoned) && !ChangesDialers(step)
    ensures DialersComplete(Apply(s, step), abandoned)
  {
    var s' := Apply(s, step);
    OriginMapsChange(s, step);
    DialersChange(s, step);
    assert Leaving(s'.threads.stasis) == Leaving(s.threads.stasis);
  }

  lemma DialersChange(s: State, step: Step)
    requires Enabled(s, step) && !ChangesDialers(step)
    ensures Apply(s, step).bridges.dialers == s.bridges.dialers
    ensures Leaving(Apply(s, step).threads.stasis) == Leaving(s.threads.stasis)
  {
    if step.OnCall? {
      MoveKeepsBridges(s, step.call, step.move);
    } else if step.StopsPush? {
      StasisMoveKeepsBridges(s, Get(s.bridges.origin, s.threads.stasis.todo[0]), CancelsPush(Stasis));
    }
  }

  lemma DialCompletes(s: State, step: Step, abandoned: set<BridgeId>)
    requires Coherent(s) && Enabled(s, step) && DialersComplete(s, abandoned) && step.Dials?
    ensures DialersComplete(Apply(s, step), abandoned)
  {
    assert CreationAgrees(s, step.bridge);
  }

  lemma DroppingCompletes(s: State, s': State, b: BridgeId, abandoned: set<BridgeId>)
    requires DialersComplete(s, abandoned) && Leaving(s.threads.stasis) == {} && b in s.bridges.dialers
    requires s'.bridges.dialers == s.bridges.dialers - {b} && s'.bridges.origin == s.bridges.origin
    ensures Leaving(s'.threads.stasis) == {b} ==> DialersComplete(s', abandoned)
    ensures Leaving(s'.threads.stasis) == {} ==> DialersComplete(s', abandoned + {b})
  {
  }

  lemma RemovalChanges(s: State)
    requires Enabled(s, StopsFallback)
    ensures var todo, s' := s.threads.stasis.todo, Apply(s, StopsFallback);
            && s'.bridges.dialers == s.bridges.dialers - {todo[0]} && s'.bridges.origin == s.bridges.origin
            && Leaving(s'.threads.stasis) == (if RemovalFails(s, todo[0]) then {} else {todo[0]})
  {
    var b := s.threads.stasis.todo[0];
    if !RemovalFails(s, b) {
      StasisMoveKeepsBridges(s, Get(s.bridges.origin, b), CancelsFallback(Stasis));
    }
  }

  lemma RemovalCompletes(s: State, abandoned: set<BridgeId>)
    requires StasisAgrees(s.bridges, s.threads.stasis) && Enabled(s, StopsFallback) && DialersComplete(s, abandoned)
    ensures DialersComplete(Apply(s, StopsFallback),
        abandoned + if Fails(s, StopsFallback) then {s.threads.stasis.todo[0]} else {})
  {
    RemovalChanges(s);
    DroppingCompletes(s, Apply(s, StopsFallback), s.threads.stasis.todo[0], abandoned);
    assert abandoned + {} == abandoned;
  }

  lemma StepCompletes(s: State, step: Step, abandoned: set<BridgeId>)
    requires Coherent(s) && Enabled(s, step) && DialersComplete(s, abandoned)
    ensures DialersComplete(Apply(s, step), abandoned + if Fails(s, step) then {s.threads.stasis.todo[0]} else {})
  {
    if step.Dials? {
      DialCompletes(s, step, abandoned);
    } else if step.TakesDialer? {
      TakingCompletes(s, abandoned);
    } else if step.StopsFallback? {
      RemovalCompletes(s, abandoned);
    } else if step.Prunes? {
      PruneCompletes(s, abandoned);
    } else {
      OtherStepsComplete(s, step, abandoned);
    }
    assert !step.StopsFallback? ==> abandoned + {} == abandoned;
  }

  lemma TakingCompletes(s: State, abandoned: set<BridgeId>)
    requires Coherent(s) && Enabled(s, TakesDialer) && DialersComplete(s, abandoned)
    ensures DialersComplete(Apply(s, TakesDialer), abandoned)
  {
  }

  lemma PruneCompletes(s: State, abandoned: set<BridgeId>)
    requires Coherent(s) && Enabled(s, Prunes) && DialersComplete(s, abandoned)
    ensures DialersComplete(Apply(s, Prunes), abandoned)
  {
    if s.threads.stasis.Popping? && s.threads.stasis.pop.PopEntry? {
      PopCompletes(s, abandoned);
    }
  }

  lemma PopCompletes(s: State, abandoned: set<BridgeId>)
    requires Coherent(s) && Enabled(s, Prunes) && DialersComplete(s, abandoned)
    requires s.threads.stasis.Popping? && s.threads.stasis.pop.PopEntry?
    ensures DialersComplete(Apply(s, Prunes), abandoned)
  {
    MoveKeepsBridges(s, s.threads.stasis.pruned, Pops(s.threads.stasis.pop.entry));
  }

  lemma {:induction false} RunCompletes(run: Run, i: nat)
    requires run.FromInitial() && i < |run.states|
    ensures DialersComplete(run.states[i], Abandoned(run, i))
  {
    if i > 0 {
      RunCompletes(run, i - 1);
      RunIsCoherent(run, i - 1);
      assert run.IsStep(i - 1);
      StepCompletes(run.states[i - 1], run.steps[i - 1], Abandoned(run, i - 1));
    }
  }

  /** No removal of a dialer failed so far. */
  ghost predicate NoneFailed(run: Run, i: nat)
    requires run.Valid() && i < |run.states|
  {
    forall k :: 0 <= k < i ==> !Fails(run.states[k], run.steps[k])
  }

  lemma {:induction false} AbandonedExactly(run: Run, i: nat)
    requires run.Valid() && i < |run.states|
    ensures Abandoned(run, i) == {} <==> NoneFailed(run, i)
  {
    if i > 0 {
      AbandonedExactly(run, i - 1);
      assert NoneFailed(run, i) <==> NoneFailed(run, i - 1) && !Fails(run.states[i - 1], run.steps[i - 1]);
    }
  }

  /** When no stasis handler is in progress the callers and the origin calls have the same keys, and the dialers
      lack exactly the bridges that were abandoned: so the three dictionaries agree exactly if no removal of a
      dialer ever failed on its assertion.  The two maps between bridges and origin calls are inverse where both
      are defined, and `_dialers_by_aor` partitions exactly the live dialers. */
  lemma HandlerBoundary(run: Run, i: nat)
    requires run.FromInitial() && i < |run.states| && run.states[i].threads.stasis.Idle?
    ensures var m := run.states[i].bridges;
            && m.callerLeg.Keys == m.origin.Keys && Abandoned(run, i) <= m.origin.Keys
            && m.dialers.Keys == m.origin.Keys - Abandoned(run, i)
            && (m.dialers.Keys == m.callerLeg.Keys == m.origin.Keys <==> NoneFailed(run, i))
            && (forall c :: c in m.byOrigin ==> m.byOrigin[c] in m.origin && m.origin[m.byOrigin[c]] == c)
    ensures AorsPartition(run.states[i].bridges)
  {
    RunAgrees(run, i);
    AbandonedExactly(run, i);
    IdleAgrees(run.states[i], Abandoned(run, i));
    AorsAgreeBothWays(run.states[i].bridges);
  }

  lemma RunAgrees(run: Run, i: nat)
    requires run.FromInitial() && i < |run.states|
    ensures MapsAgree(run.states[i].bridges, run.states[i].threads.stasis) && AorsAgree(run.states[i].bridges)
    ensures DialersComplete(run.states[i], Abandoned(run, i))
  {
    RunIsCoherent(run, i);
    RunCompletes(run, i);
  }

  lemma IdleAgrees(s: State, abandoned: set<BridgeId>)
    requires MapsAgree(s.bridges, s.threads.stasis) && DialersComplete(s, abandoned) && s.threads.stasis.Idle?
    ensures var m := s.bridges;
            && m.callerLeg.Keys == m.origin.Keys && abandoned <= m.origin.Keys
            && m.dialers.Keys == m.origin.Keys - abandoned
            && (m.dialers.Keys == m.callerLeg.Keys == m.origin.Keys <==> abandoned == {})
            && (forall c :: c in m.byOrigin ==> m.byOrigin[c] in m.origin && m.origin[m.byOrigin[c]] == c)
  {
    var m := s.bridges;
    assert m.dialers.Keys == m.origin.Keys - abandoned;
    assert m.dialers.Keys == m.origin.Keys ==> abandoned == {};
  }

  /** An abandoned bridge stays in the dictionaries for good: no later handler, and no join of it, prunes it. */
  lemma {:induction false} AbandonedForGood(run: Run, i: nat, j: nat, b: BridgeId)
    requires run.FromInitial() && i <= j < |run.states| && b in Abandoned(run, i)
    ensures b in Abandoned(run, j) && b !in run.states[j].bridges.dialers
    ensures b in run.states[j].bridges.origin && b in run.states[j].bridges.callerLeg
    decreases j
  {
    RunIsCoherent(run, j);
    RunCompletes(run, j);
    if i < j {
      AbandonedForGood(run, i, j - 1, b);
    }
  }

  /** No set is empty, every dialer in one is live and under its own AOR, and every live dialer is in one. */
  ghost predicate AorsPartition(m: BridgeMaps)
  {
    && (forall a :: a in m.byAor ==> m.byAor[a] != {})
    && (forall a, b :: a in m.byAor && b in m.byAor[a] ==> b in m.dialers && m.dialers[b].aor == a)
    && (forall b :: b in m.dialers ==> m.dialers[b].aor in m.byAor && b in m.byAor[m.dialers[b].aor])
  }

  lemma AorsAgreeBothWays(m: BridgeMaps)
    requires AorsAgree(m)
    ensures AorsPartition(m)
  {
    assert forall b :: b in m.dialers ==> b in DialersOf(m, m.dialers[b].aor);
    assert forall a, b :: a in m.byAor && b in m.byAor[a] ==> b in DialersOf(m, a);
  }

  // ---- One dial per origin call ----

  /** The maps between bridges and origin calls are a full bijection. */
  ghost predicate Bijective(m: BridgeMaps)
  {
    && (forall b :: b in m.origin ==> m.origin[b] in m.byOrigin && m.byOrigin[m.origin[b]] == b)
    && (forall c :: c in m.byOrigin ==> m.byOrigin[c] in m.origin && m.origin[m.byOrigin[c]] == c)
  }

  /** As long as the bridge of a call is not popped yet, the rest is. */
  ghost predicate NearlyBijective(m: BridgeMaps, popped: Option<CallId>)
  {
    && (forall b :: b in m.origin ==>
          m.origin[b] in m.byOrigin && m.byOrigin[m.origin[b]] == b && popped != Some(m.origin[b]))
    && (forall c :: c in m.byOrigin && popped != Some(c) ==> m.byOrigin[c] in m.origin && m.origin[m.byOrigin[c]] == c)
  }

  /** No origin call is dialed while a bridge still waits for it. */
  ghost predicate OneDialPerOrigin(s: State, step: Step)
  {
    step.Dials? ==> step.origin !in s.bridges.origin.Values
  }

  lemma StepKeepsBijection(s: State, step: Step)
    requires Coherent(s) && Enabled(s, step) && OneDialPerOrigin(s, step)
        && NearlyBijective(s.bridges, PoppedNext(s.threads.stasis))
    ensures NearlyBijective(Apply(s, step).bridges, PoppedNext(Apply(s, step).threads.stasis))
  {
    if step.Dials? {
      DialKeepsBijection(s, step);
    } else if step.Prunes? {
      PruneKeepsBijection(s);
    } else {
      OriginMapsChange(s, step);
    }
  }

  lemma DialKeepsBijection(s: State, step: Step)
    requires Coherent(s) && step.Dials? && Enabled(s, step) && OneDialPerOrigin(s, step)
        && NearlyBijective(s.bridges, PoppedNext(s.threads.stasis))
    ensures NearlyBijective(Apply(s, step).bridges, PoppedNext(Apply(s, step).threads.stasis))
  {
    assert CreationAgrees(s, step.bridge);
  }

  lemma PruneKeepsBijection(s: State)
    requires Coherent(s) && Enabled(s, Prunes) && NearlyBijective(s.bridges, PoppedNext(s.threads.stasis))
    ensures NearlyBijective(Apply(s, Prunes).bridges, PoppedNext(Apply(s, Prunes).threads.stasis))
  {
    match s.threads.stasis
    case Pruning(b, _) => OriginPopped(s.bridges, b);
    case Popping(_, c, PopBridge, _) => BridgePopped(s.bridges, c);
    case Popping(_, c, PopEntry(entry), _) => MoveKeepsBridges(s, c, Pops(entry));
    case Closing(_, _) =>
  }

  lemma OriginPopped(m: BridgeMaps, b: BridgeId)
    requires NearlyBijective(m, None)
    ensures NearlyBijective(m.(origin := m.origin - {b}), Get(m.origin, b))
  {
  }

  lemma BridgePopped(m: BridgeMaps, c: CallId)
    requires NearlyBijective(m, Some(c))
    ensures NearlyBijective(m.(byOrigin := m.byOrigin - {c}), None)
  {
  }

  lemma {:induction false} RunIsNearlyBijective(run: Run, i: nat)
    requires run.FromInitial() && i < |run.states|
    requires forall k :: 0 <= k < |run.steps| ==> OneDialPerOrigin(run.states[k], run.steps[k])
    ensures NearlyBijective(run.states[i].bridges, PoppedNext(run.states[i].threads.stasis))
  {
    if i > 0 {
      RunIsNearlyBijective(run, i - 1);
      RunIsCoherent(run, i - 1);
      assert run.IsStep(i - 1) && OneDialPerOrigin(run.states[i - 1], run.steps[i - 1]);
      StepKeepsBijection(run.states[i - 1], run.steps[i - 1]);
    }
  }

  /** Then the two maps are a full bijection in every state, but between the first two pops of a prune. */
  lemma RunIsBijective(run: Run, i: nat)
    requires run.FromInitial() && i < |run.states|
    requires forall k :: 0 <= k < |run.steps| ==> OneDialPerOrigin(run.states[k], run.steps[k])
    ensures PoppedNext(run.states[i].threads.stasis).None? ==> Bijective(run.states[i].bridges)
  {
    RunIsNearlyBijective(run, i);
  }

  /** Over any run each future bridge is created at most once. */
  lemma BridgeIsCreatedOnce(run: Run, b: BridgeId)
    requires run.FromInitial()
    ensures var log := Log(run.Last().history.trace, CreationOf(b)); log == Empty || log.past == Empty
  {
    RunIsCoherent(run, |run.steps|);
    assert CreationAgrees(run.Last(), b);
  }

  /** A bridge that was pruned is never in the maps again. */
  lemma {:induction false} GoneBridgeStaysGone(run: Run, i: nat, j: nat, b: BridgeId)
    requires run.FromInitial() && i <= j < |run.states|
    requires b in run.states[i].history.dialed && b !in run.states[i].bridges.origin
    ensures b in run.states[j].history.dialed && b !in run.states[j].bridges.origin
    decreases j
  {
    if i < j {
      GoneBridgeStaysGone(run, i, j - 1, b);
      assert run.IsStep(j - 1);
      StepKeepsGone(run.states[j - 1], run.steps[j - 1], b);
    }
  }

  lemma StepKeepsGone(s: State, step: Step, b: BridgeId)
    requires Enabled(s, step) && b in s.history.dialed && b !in s.bridges.origin
    ensures b in Apply(s, step).history.dialed && b !in Apply(s, step).bridges.origin
  {
    MapsGrowByDialOnly(s, step);
  }

  lemma MapsGrowByDialOnly(s: State, step: Step)
    requires Enabled(s, step)
    ensures Apply(s, step).bridges.origin.Keys <= s.bridges.origin.Keys + (if step.Dials? then {step.bridge} else {})
    ensures s.history.dialed.Keys <= Apply(s, step).history.dialed.Keys
  {
    DialedGrows(s, step);
    if !step.Dials? && !step.Prunes? {
      OriginMapsChange(s, step);
    }
  }

  lemma DialedGrows(s: State, step: Step)
    requires Enabled(s, step)
    ensures s.history.dialed.Keys <= Apply(s, step).history.dialed.Keys
  {
  }

  /** A channel that joins a bridge that was created earlier in the run, or that no call waits for, is late:
      the two steps that handle it only hang it up.  Every dictionary, call and thread is as before. */
  lemma LateJoinOnlyHangsUp(run: Run, i: nat, b: BridgeId, channel: ChannelId)
    requires run.FromInitial() && i < |run.states| && run.states[i].threads.stasis.Idle? && Free(run.states[i])
    requires Log(run.states[i].history.trace, CreationOf(b)) != Empty || b !in run.states[i].bridges.origin
    ensures Enabled(run.states[i], StartsJoin(channel, b)) && b !in run.states[i].bridges.origin
    ensures JoinTake(JoinHead(run.states[i], channel, b), channel, b, None) == Emit(run.states[i], HungUp(channel))
  {
    RunIsCoherent(run, i);
    assert CreationAgrees(run.states[i], b);
  }
}
