/** Where the entries about a future bridge come from, and which two channels a bridge is created for. */
module DialMobileCreations {
  import opened Wrappers
  import opened Identifiers
  import opened DialMobileModel
  import opened DialMobileBridges
  import opened DialMobileReasons

  // ---- What a bridge was dialed for ----

  /** The bridge was dialed for this caller, origin call and AOR at this step. */
  predicate DialedAt(run: Run, k: nat, b: BridgeId, caller: ChannelId, origin: CallId, aor: Aor)
    requires k < |run.steps|
  {
    run.steps[k] == Dials(caller, origin, aor, b)
  }

  ghost predicate WasDialed(run: Run, n: nat, b: BridgeId, caller: ChannelId, origin: CallId, aor: Aor)
    requires n <= |run.steps|
  {
    exists k :: 0 <= k < n && DialedAt(run, k, b, caller, origin, aor)
  }

  /** What the dictionaries say of a bridge is what it was dialed for. */
  predicate SaysWhatWasDialed(m: BridgeMaps, b: BridgeId, caller: ChannelId, origin: CallId, aor: Aor)
  {
    && (b in m.dialers ==> m.dialers[b] == Dialer(caller, aor))
    && (b in m.callerLeg ==> m.callerLeg[b] == caller)
    && (b in m.origin ==> m.origin[b] == origin)
    && (forall c :: c in m.byOrigin && m.byOrigin[c] == b ==> c == origin)
  }

  /** The dictionaries know nothing of a bridge that was never dialed. */
  predicate SaysNothing(m: BridgeMaps, b: BridgeId)
  {
    b !in m.dialers && b !in m.callerLeg && b !in m.origin && b !in m.byOrigin.Values
  }

  /** Of all steps, only dialing adds to the dictionaries about bridges. */
  predicate OnlyLess(m: BridgeMaps, m': BridgeMaps)
  {
    && (forall b :: b in m'.dialers ==> b in m.dialers && m'.dialers[b] == m.dialers[b])
    && (forall b :: b in m'.callerLeg ==> b in m.callerLeg && m'.callerLeg[b] == m.callerLeg[b])
    && (forall b :: b in m'.origin ==> b in m.origin && m'.origin[b] == m.origin[b])
    && (forall c :: c in m'.byOrigin ==> c in m.byOrigin && m'.byOrigin[c] == m.byOrigin[c])
  }

  lemma StoppingOnlyForgets(s: State)
    requires Enabled(s, StopsFallback)
    ensures var s' := Apply(s, StopsFallback); OnlyLess(s.bridges, s'.bridges) && s'.history.dialed == s.history.dialed
  {
    StasisMoveKeepsBridges(s, Get(s.bridges.origin, s.threads.stasis.todo[0]), CancelsFallback(Stasis));
  }

  lemma MovingOnlyForgets(s: State, step: Step)
    requires Enabled(s, step) && (step.StartsJoin? || step.RefusesPush? || step.StopsPush? || step.MarksGone?)
    ensures Apply(s, step).bridges == s.bridges && Apply(s, step).history.dialed == s.history.dialed
  {
    var pc := s.threads.stasis;
    match step
    case StartsJoin(channel, b) => StasisMoveKeepsBridges(s, Get(s.bridges.origin, b), Joins(channel));
    case RefusesPush => StasisMoveKeepsBridges(s, pc.call, CancelsPush(Stasis));
    case StopsPush => StasisMoveKeepsBridges(s, Get(s.bridges.origin, pc.todo[0]), CancelsPush(Stasis));
    case MarksGone(c) => MoveKeepsBridges(s, c, Marks(pc.channel));
  }

  lemma PruningOnlyForgets(s: State)
    requires Enabled(s, Prunes)
    ensures OnlyLess(s.bridges, Apply(s, Prunes).bridges) && Apply(s, Prunes).history.dialed == s.history.dialed
  {
    var pc := s.threads.stasis;
    if pc.Popping? && pc.pop.PopEntry? {
      MoveKeepsBridges(s, pc.pruned, Pops(pc.pop.entry));
    }
  }

  lemma StepOnlyForgets(s: State, step: Step)
    requires Enabled(s, step) && !step.Dials?
    ensures OnlyLess(s.bridges, Apply(s, step).bridges) && Apply(s, step).history.dialed.Keys == s.history.dialed.Keys
  {
    match step
    case OnCall(c, move) => MoveKeepsBridges(s, c, move);
    case StasisLeaves => MoveKeepsBridges(s, s.threads.stasisBlock.value, Leaves(Stasis));
    case StopsFallback => StoppingOnlyForgets(s);
    case Prunes => PruningOnlyForgets(s);
    case StartsJoin(_, _) => MovingOnlyForgets(s, step);
    case RefusesPush => MovingOnlyForgets(s, step);
    case StopsPush => MovingOnlyForgets(s, step);
    case MarksGone(_) => MovingOnlyForgets(s, step);
    case _ =>
  }

  /** A bridge is known for what it was dialed for, or was never dialed. */
  ghost predicate DialedRight(run: Run, n: nat, b: BridgeId)
    requires n <= |run.steps| < |run.states|
  {
    var s := run.states[n];
    if b in s.history.dialed
    then exists caller, origin, aor ::
           WasDialed(run, n, b, caller, origin, aor) && SaysWhatWasDialed(s.bridges, b, caller, origin, aor)
    else SaysNothing(s.bridges, b) && NeverDialed(run, n, b)
  }

  ghost predicate NeverDialed(run: Run, n: nat, b: BridgeId)
    requires n <= |run.steps|
  {
    forall k :: 0 <= k < n ==> !Dialing(run, k, b)
  }

  predicate Dialing(run: Run, k: nat, b: BridgeId)
    requires k < |run.steps|
  {
    run.steps[k].Dials? && run.steps[k].bridge == b
  }

  lemma LessSaysTheSame(m: BridgeMaps, m': BridgeMaps, b: BridgeId)
    requires OnlyLess(m, m')
    ensures SaysNothing(m, b) ==> SaysNothing(m', b)
    ensures forall caller, origin, aor ::
              SaysWhatWasDialed(m, b, caller, origin, aor) ==> SaysWhatWasDialed(m', b, caller, origin, aor)
  {
  }

  lemma DialSays(m: BridgeMaps, caller: ChannelId, origin: CallId, aor: Aor, b: BridgeId, d: BridgeId)
    ensures var m' := AddDialer(m, caller, origin, aor, b);
            && (d == b && SaysNothing(m, b) ==> SaysWhatWasDialed(m', b, caller, origin, aor))
            && (d != b && SaysNothing(m, d) ==> SaysNothing(m', d))
            && (forall x, o, a :: d != b && SaysWhatWasDialed(m, d, x, o, a) ==> SaysWhatWasDialed(m', d, x, o, a))
  {
  }

  lemma DialKeepsRight(run: Run, n: nat, b: BridgeId)
    requires run.Valid() && n < |run.steps| && run.steps[n].Dials? && DialedRight(run, n, b)
    ensures DialedRight(run, n + 1, b)
  {
    assert run.IsStep(n);
    var s := run.states[n];
    match run.steps[n]
    case Dials(caller, origin, aor, d) =>
      DialSays(s.bridges, caller, origin, aor, d, b);
      if b == d {
        assert DialedAt(run, n, b, caller, origin, aor);
        assert WasDialed(run, n + 1, b, caller, origin, aor);
      } else if b in s.history.dialed {
        var x, o, a :| WasDialed(run, n, b, x, o, a) && SaysWhatWasDialed(s.bridges, b, x, o, a);
        assert WasDialed(run, n + 1, b, x, o, a);
      }
  }

  lemma OthersKeepRight(run: Run, n: nat, b: BridgeId)
    requires run.Valid() && n < |run.steps| && !run.steps[n].Dials? && DialedRight(run, n, b)
    ensures DialedRight(run, n + 1, b)
  {
    assert run.IsStep(n);
    var s, s' := run.states[n], run.states[n + 1];
    StepOnlyForgets(s, run.steps[n]);
    LessSaysTheSame(s.bridges, s'.bridges, b);
    if b in s.history.dialed {
      var x, o, a :| WasDialed(run, n, b, x, o, a) && SaysWhatWasDialed(s.bridges, b, x, o, a);
      assert WasDialed(run, n + 1, b, x, o, a);
    }
  }

  /** In every state the dictionaries say of each bridge what the one dial of it said. */
  lemma {:induction false} BridgeIsAsDialed(run: Run, n: nat, b: BridgeId)
    requires run.FromInitial() && n < |run.states|
    ensures DialedRight(run, n, b)
  {
    if n > 0 {
      BridgeIsAsDialed(run, n - 1, b);
      if run.steps[n - 1].Dials? {
        DialKeepsRight(run, n - 1, b);
      } else {
        OthersKeepRight(run, n - 1, b);
      }
    }
  }

  /** A bridge is dialed once in a run. */
  lemma DialedOnce(run: Run, k: nat, l: nat, b: BridgeId)
    requires run.FromInitial() && k < |run.steps| && l < |run.steps| && Dialing(run, k, b) && Dialing(run, l, b)
    ensures k == l
  {
    BridgeIsAsDialed(run, k, b);
    BridgeIsAsDialed(run, l, b);
    assert run.IsStep(k) && run.IsStep(l);
  }

  // ---- Which channels a dialer has originated ----

  predicate ContactAt(run: Run, k: nat, b: BridgeId, channel: ChannelId)
    requires k < |run.steps|
  {
    run.steps[k] == ContactDialed(b, channel)
  }

  ghost predicate WasContacted(run: Run, n: nat, b: BridgeId, channel: ChannelId)
    requires n <= |run.steps|
  {
    exists k :: 0 <= k < n && ContactAt(run, k, b, channel)
  }

  predicate Knows(s: State, b: BridgeId, channel: ChannelId)
  {
    b in s.history.dialed && channel in s.history.dialed[b]
  }

  lemma StepKnows(s: State, step: Step, b: BridgeId, channel: ChannelId)
    requires Enabled(s, step)
    ensures Knows(Apply(s, step), b, channel) <==> Knows(s, b, channel) || step == ContactDialed(b, channel)
  {
    match step
    case OnCall(c, move) => MoveKeepsBridges(s, c, move);
    case StasisLeaves => MoveKeepsBridges(s, s.threads.stasisBlock.value, Leaves(Stasis));
    case StopsFallback => StoppingOnlyForgets(s);
    case Prunes => PruningOnlyForgets(s);
    case StartsJoin(_, _) => MovingOnlyForgets(s, step);
    case RefusesPush => MovingOnlyForgets(s, step);
    case StopsPush => MovingOnlyForgets(s, step);
    case MarksGone(_) => MovingOnlyForgets(s, step);
    case _ =>
  }

  /** A dialer is asked about exactly the channels that it originated so far. */
  lemma {:induction false} KnowsWhatItDialed(run: Run, n: nat, b: BridgeId, channel: ChannelId)
    requires run.FromInitial() && n < |run.states|
    ensures Knows(run.states[n], b, channel) <==> WasContacted(run, n, b, channel)
  {
    if n > 0 {
      KnowsWhatItDialed(run, n - 1, b, channel);
      assert run.IsStep(n - 1);
      StepKnows(run.states[n - 1], run.steps[n - 1], b, channel);
      assert ContactAt(run, n - 1, b, channel) <==> run.steps[n - 1] == ContactDialed(b, channel);
    }
  }

  // ---- Which channels are put together ----

  /** The latest join started is that of this channel in this bridge. */
  ghost predicate JoinUnderWay(run: Run, n: nat, channel: ChannelId, b: BridgeId)
    requires n <= |run.steps|
  {
    exists j :: 0 <= j < n && LatestJoinAt(run, j, n, channel, b)
  }

  ghost predicate LatestJoinAt(run: Run, j: nat, n: nat, channel: ChannelId, b: BridgeId)
    requires j < n <= |run.steps|
  {
    run.steps[j] == StartsJoin(channel, b) && forall l :: j < l < n ==> !run.steps[l].StartsJoin?
  }

  lemma JoinGoesOn(s: State, step: Step)
    requires Enabled(s, step)
    ensures var pc, pc' := s.threads.stasis, Apply(s, step).threads.stasis;
            (pc'.Joining? || pc'.Stopping?) ==>
              if step.StartsJoin? then pc'.channel == step.channel && pc'.bridge == step.bridge
              else (pc.Joining? || pc.Stopping?) && pc'.channel == pc.channel && pc'.bridge == pc.bridge
  {
    if step.RefusesPush? || step.StopsPush? || step.MarksGone? || step.StartsJoin? {
      MovingOnlyForgets(s, step);
    }
  }

  lemma {:induction false} JoinIsUnderWay(run: Run, n: nat)
    requires run.FromInitial() && n < |run.states|
    ensures var pc := run.states[n].threads.stasis;
            pc.Joining? || pc.Stopping? ==> JoinUnderWay(run, n, pc.channel, pc.bridge)
  {
    if n > 0 {
      JoinIsUnderWay(run, n - 1);
      assert run.IsStep(n - 1);
      JoinGoesOn(run.states[n - 1], run.steps[n - 1]);
      var pc, pc' := run.states[n - 1].threads.stasis, run.states[n].threads.stasis;
      if pc'.Joining? || pc'.Stopping? {
        if run.steps[n - 1].StartsJoin? {
          assert LatestJoinAt(run, n - 1, n, pc'.channel, pc'.bridge);
        } else {
          var j :| 0 <= j < n - 1 && LatestJoinAt(run, j, n - 1, pc.channel, pc.bridge);
          assert LatestJoinAt(run, j, n, pc'.channel, pc'.bridge);
        }
      }
    }
  }

  /** The bridging got as far as creating the bridge. */
  predicate BridgedAt(run: Run, i: nat)
    requires i < |run.steps|
  {
    run.steps[i] == Connects(Bridged) || run.steps[i] == Connects(AriFailed(true))
  }

  lemma CreatedOnlyByConnecting(s: State, step: Step, b: BridgeId, x: ChannelId, y: ChannelId)
    requires Enabled(s, step) && Reason(s, step, BridgeCreated(b, x, y))
    ensures s.threads.stasis.Stopping? && s.threads.stasis.channel == x && s.threads.stasis.bridge == b
    ensures Get(s.bridges.callerLeg, b) == Some(y) && b in s.bridges.callerLeg
    ensures step == Connects(Bridged) || step == Connects(AriFailed(true))
  {
  }

  /** Every bridge of a run is created for the channel whose join is under way and for the caller that the bridge was
      dialed for, and so for two channels of the right call. */
  lemma BridgePutsTogether(run: Run, n: nat, b: BridgeId, x: ChannelId, y: ChannelId)
    requires run.FromInitial() && n < |run.states| && run.states[n].history.trace.Has(BridgeCreated(b, x, y))
    ensures exists i, origin, aor ::
              0 <= i < n && BridgedAt(run, i) && JoinUnderWay(run, i, x, b) && WasDialed(run, i, b, y, origin, aor)
  {
    EffectsHaveReasons(run, n, BridgeCreated(b, x, y));
    var i :| 0 <= i < n && HasReason(run, i, BridgeCreated(b, x, y));
    assert run.IsStep(i);
    CreatedOnlyByConnecting(run.states[i], run.steps[i], b, x, y);
    JoinIsUnderWay(run, i);
    BridgeIsAsDialed(run, i, b);
    var caller, origin, aor :|
      WasDialed(run, i, b, caller, origin, aor) && SaysWhatWasDialed(run.states[i].bridges, b, caller, origin, aor);
    assert caller == y && BridgedAt(run, i) && JoinUnderWay(run, i, x, b) && WasDialed(run, i, b, y, origin, aor);
  }

  // ---- Handlers come to their end ----

  /** How much the stasis thread still has to do: the calls to mark, then the bridges to deal with, then the steps with
      the one at hand. */
  datatype Work = Work(calls: nat, bridges: nat, steps: nat)
  {
    predicate Below(w: Work)
    {
      calls < w.calls || (calls == w.calls && (bridges < w.bridges || (bridges == w.bridges && steps < w.steps)))
    }
  }

  function WorkOf(pc: StasisPc): Work
  {
    match pc
    case Idle => Work(0, 0, 0)
    case Joining(_, _, _) => Work(0, 1, 15)
    case Stopping(_, _, _) => Work(0, 1, 14)
    case Refusing(_, _) => Work(0, 1, 13)
    case Marking(_, calls) => Work(1 + |calls|, 0, 0)
    case Removing(todo, StopFallback) => Work(0, |todo|, 12)
    case Removing(todo, StopPush) => Work(0, |todo|, 11)
    case Pruning(_, next) => Work(0, |next| + 1, 10)
    case Popping(_, _, PopBridge, next) => Work(0, |next| + 1, 9)
    case Popping(_, _, PopEntry(OfRingTime), next) => Work(0, |next| + 1, 8)
    case Popping(_, _, PopEntry(OfFallback), next) => Work(0, |next| + 1, 7)
    case Popping(_, _, PopEntry(OfLock), next) => Work(0, |next| + 1, 6)
    case Popping(_, _, PopEntry(OfIncoming), next) => Work(0, |next| + 1, 5)
    case Closing(_, next) => Work(0, |next| + 1, 4)
  }

  /** The steps by which a handler that is in progress goes on. */
  predicate GoesOn(step: Step)
  {
    || step.TakesDialer? || step.Connects? || step.RefusesPush? || step.MarksGone? || step.CollectsGone?
    || step.StopsFallback? || step.StopsPush? || step.Prunes?
  }

  lemma MarkingGoesOn(s: State, c: CallId)
    requires Enabled(s, MarksGone(c))
    ensures WorkOf(Apply(s, MarksGone(c)).threads.stasis).Below(WorkOf(s.threads.stasis))
  {
    MovingOnlyForgets(s, MarksGone(c));
    var calls := s.threads.stasis.calls;
    assert calls == (calls - {c}) + {c};
  }

  lemma PruningGoesOn(s: State)
    requires Enabled(s, Prunes)
    ensures WorkOf(Apply(s, Prunes).threads.stasis).Below(WorkOf(s.threads.stasis))
  {
  }

  lemma RemovingGoesOn(s: State, step: Step)
    requires Enabled(s, step) && (step.RefusesPush? || step.StopsFallback? || step.StopsPush?)
    ensures WorkOf(Apply(s, step).threads.stasis).Below(WorkOf(s.threads.stasis))
  {
    if step.StopsFallback? {
      StoppingOnlyForgets(s);
    } else {
      MovingOnlyForgets(s, step);
    }
  }

  /** Whatever other threads do, the handler is where it was. */
  lemma OthersLeaveHandlers(s: State, step: Step)
    requires Enabled(s, step) && (step.OnCall? || step.StasisLeaves? || step.ContactDialed?)
    ensures Apply(s, step).threads.stasis == s.threads.stasis
  {
    match step
    case OnCall(c, move) => MoveKeepsBridges(s, c, move);
    case StasisLeaves => MoveKeepsBridges(s, s.threads.stasisBlock.value, Leaves(Stasis));
    case _ =>
  }

  /** Each of its own steps leaves it less to do: so every handler ends after finitely many steps, whatever other
      threads do in between. */
  lemma HandlersEnd(s: State, step: Step)
    requires Enabled(s, step) && GoesOn(step)
    ensures WorkOf(Apply(s, step).threads.stasis).Below(WorkOf(s.threads.stasis))
  {
    match step
    case MarksGone(c) => MarkingGoesOn(s, c);
    case Prunes => PruningGoesOn(s);
    case RefusesPush => RemovingGoesOn(s, step);
    case StopsFallback => RemovingGoesOn(s, step);
    case StopsPush => RemovingGoesOn(s, step);
    case _ =>
  }
}
