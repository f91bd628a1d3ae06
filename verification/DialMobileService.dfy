/** `DialMobileService` itself: nine dictionaries that its methods update in place.  A method that works under
    the lock of a call runs from the point where it has the lock; it is proved to do, when no prune comes in
    between, the two steps of its block one after the other. */
module DialMobileService {
  import opened Wrappers
  import opened Identifiers
  import opened DialMobileModel
  import opened DialMobileCalls
  import opened DialMobileSteps
  import opened DialMobilePrunes
  import opened DialMobileBridges
  import opened DialMobileLegs
  import opened DialMobileReasons

  // ---- Whole blocks ----

  /** The second step of a block, if the first one entered it. */
  function Finish(s: State, c: CallId, w: Worker): State
  {
    var v := CallOf(s, c);
    if w in v.blocks then Done(s, c, Leave(c, v, w)) else s
  }

  function CancelFallback(s: State, c: CallId, w: Worker): State
  {
    Finish(Done(s, c, EnterCancelFallback(c, CallOf(s, c), w, c in s.calls.locks)), c, w)
  }

  function CancelPush(s: State, c: CallId, w: Worker): State
  {
    Finish(Done(s, c, EnterCancelPush(c, CallOf(s, c), w, c in s.calls.locks)), c, w)
  }

  function CompletePush(s: State, c: CallId, w: Worker): State
  {
    Finish(Done(s, c, Did(EnterCompletePush(CallOf(s, c), w, c in s.calls.locks).call, None)), c, w)
  }

  function SendSecond(s: State, c: CallId, eligible: bool): State
    requires CallOf(s, c).send.Some?
  {
    Finish(Done(s, c, EnterSend(c, CallOf(s, c), eligible)), c, Sender)
  }

  function Phase1(s: State, c: CallId): State
  {
    Finish(PutCall(s, c, EnterPhase1(CallOf(s, c))), c, Timer)
  }

  function Abort(s: State, c: CallId): State
  {
    Finish(PutCall(s, c, EnterAbort(CallOf(s, c))), c, Timer)
  }

  /** Phase 3 with the cancellation of the push in the middle. */
  function Phase3(s: State, c: CallId, leg: Option<ChannelId>): State
    requires CallOf(s, c).timer.Some? && CallOf(s, c).timer.value.Commit? && Timer !in CallOf(s, c).blocks
  {
    var originated := Done(s, c, EnterPhase3(c, CallOf(s, c), leg));
    if Timer in CallOf(originated, c).blocks
    then Finish(Done(originated, c, Phase3CancelPush(c, CallOf(originated, c))), c, Timer)
    else originated
  }

  /** A call worked on by a whole block of another thread stays regular. */
  lemma BlockKeepsRegular(s: State, c: CallId, move: Move, w: Worker)
    requires Regular(s) && Concurrent(s, c, move) && CanMove(CallOf(s, c), move) && !w.Stasis?
    ensures var entered := Done(s, c, Make(c, CallOf(s, c), move));
            CanLeave(CallOf(entered, c), w) || w !in CallOf(entered, c).blocks ==> Regular(Finish(entered, c, w))
  {
    var did := Make(c, CallOf(s, c), move);
    MoveKeepsRegular(s, c, move, did);
    if CanLeave(CallOf(Done(s, c, did), c), w) {
      LeavingKeepsRegular(Done(s, c, did), c, w);
    }
  }

  lemma RememberingKeepsRegular(s: State, c: CallId)
    requires Regular(s) && CanMove(CallOf(s, c), CancelsPushOfLeg)
    ensures Regular(Finish(Done(s, c, Phase3CancelPush(c, CallOf(s, c))), c, Timer))
  {
    var entered := Done(s, c, Phase3CancelPush(c, CallOf(s, c)));
    LegCanBeRemembered(c, CallOf(s, c));
    DoneIs(s, c, Phase3CancelPush(c, CallOf(s, c)));
    MoveKeepsRegular(s, c, CancelsPushOfLeg, Phase3CancelPush(c, CallOf(s, c)));
    LeavingKeepsRegular(entered, c, Timer);
  }

  lemma LegCanBeRemembered(c: CallId, v: Call)
    requires CanMove(v, CancelsPushOfLeg)
    ensures Make(c, v, CancelsPushOfLeg) == Phase3CancelPush(c, v) && CanLeave(Phase3CancelPush(c, v).call, Timer)
  {
  }

  lemma MoveKeepsRegular(s: State, c: CallId, move: Move, did: Did)
    requires Regular(s) && Concurrent(s, c, move) && CanMove(CallOf(s, c), move) && did == Make(c, CallOf(s, c), move)
    ensures Regular(Done(s, c, did))
  {
    StepKeepsRegular(s, OnCall(c, move));
  }

  lemma LeavingKeepsRegular(s: State, c: CallId, w: Worker)
    requires Regular(s) && CanLeave(CallOf(s, c), w) && !w.Stasis?
    ensures Regular(Finish(s, c, w))
  {
    StepKeepsRegular(s, OnCall(c, Leaves(w)));
  }

  lemma WithSame<K, V>(m: map<K, V>, k: K)
    ensures With(m, k, Get(m, k)) == m
  {
  }

  /** Putting back what is there changes no dictionary. */
  lemma PutSame(s: State, c: CallId)
    ensures With(s.calls.incoming, c, Get(s.calls.incoming, c)) == s.calls.incoming
    ensures With(s.calls.fallbacks, c, Get(s.calls.fallbacks, c)) == s.calls.fallbacks
    ensures With(s.calls.ringTime, c, Get(s.calls.ringTime, c)) == s.calls.ringTime
    ensures (if c in s.calls.locks then s.calls.locks + {c} else s.calls.locks - {c}) == s.calls.locks
  {
    WithSame(s.calls.incoming, c);
    WithSame(s.calls.fallbacks, c);
    WithSame(s.calls.ringTime, c);
  }

  /** The call after the first step of a block. */
  lemma DoneIs(s: State, c: CallId, did: Did)
    ensures CallOf(Done(s, c, did), c) == did.call
  {
    PutKeepsOthers(if did.effect.Some? then Emit(s, did.effect.value) else s, c, did.call, c);
  }

  lemma FallbackPlan(s: State, c: CallId, w: Worker)
    requires w !in CallOf(s, c).blocks
    ensures var did, f := EnterCancelFallback(c, CallOf(s, c), w, c in s.calls.locks), Get(s.calls.fallbacks, c);
            && (if c in s.calls.locks && f.Some? && !f.value.Quiet()
                then did.call == Enter(CallOf(s, c), w, Block(true, None, Some(FallbackCancelled)))
                else did.call == CallOf(s, c))
            && did.effect == (if c in s.calls.locks && f.Some? && f.value.Dialing? then Some(HungUp(f.value.leg))
                else None)
  {
  }

  lemma PushPlan(s: State, c: CallId, w: Worker)
    requires w !in CallOf(s, c).blocks
    ensures var did, i := EnterCancelPush(c, CallOf(s, c), w, c in s.calls.locks), Get(s.calls.incoming, c);
            && (if i.Some? && !i.value.Terminal()
                then did.call == Enter(CallOf(s, c), w,
                    Block(c in s.calls.locks, Some(PushCancelled(i.value.info)), None))
                else did.call == CallOf(s, c))
            && did.effect == (if i.Some? && i.value.Notified? then Some(PushCancelSent(c, i.value.info)) else None)
  {
  }

  lemma LegPlan(s: State, c: CallId, leg: ChannelId)
    requires Timer in CallOf(s, c).blocks && CallOf(s, c).blocks[Timer] == Block(true, None, Some(Dialing(leg)))
    ensures var v', i := Phase3CancelPush(c, CallOf(s, c)).call, Get(s.calls.incoming, c);
            && v'.timer == Some(Finished) && Timer in v'.blocks
            && v'.blocks[Timer] == Block(true, if i.Some? && !i.value.Terminal() then Some(PushCancelled(i.value.info))
                else None, Some(Dialing(leg)))
  {
  }

  lemma SenderIsOut(s: State, c: CallId)
    requires Regular(s) && CallOf(s, c).send.Some?
    ensures Sender !in CallOf(s, c).blocks
  {
    assert Base(c, KnownOf(s, c));
    assert Sender in CallOf(s, c).blocks ==> BlockIsSound(c, KnownOf(s, c), Sender, CallOf(s, c).blocks[Sender]);
  }

  lemma CompletePlan(s: State, c: CallId, w: Worker)
    requires w !in CallOf(s, c).blocks
    ensures var v', i := EnterCompletePush(CallOf(s, c), w, c in s.calls.locks).call, Get(s.calls.incoming, c);
            if i.Some? && !i.value.Terminal()
            then v' == Enter(CallOf(s, c), w, Block(c in s.calls.locks, Some(Received(i.value.info)), None))
            else v' == CallOf(s, c)
    ensures EnterCompletePush(CallOf(s, c), w, c in s.calls.locks).effect == None
  {
  }

  lemma SendPlan(s: State, c: CallId, eligible: bool)
    requires CallOf(s, c).send.Some? && Sender !in CallOf(s, c).blocks
    ensures var did, i, info := EnterSend(c, CallOf(s, c), eligible), Get(s.calls.incoming, c), CallOf(s, c).send.value;
            if i.Some? && i.value.Pending?
            then did.effect == Some(PushSent(c, info)) && Sender in did.call.blocks
                 && did.call.blocks[Sender] == Block(true, Some(Notified(info)),
                     if eligible then Some(FallbackPending) else None)
            else did.effect == None && Sender !in did.call.blocks
  {
  }

  class Service {
    var contactDialers: map<BridgeId, Dialer>
    var dialersByAor: map<Aor, set<BridgeId>>
    var callerLegByBridge: map<BridgeId, ChannelId>
    var callRingTime: map<CallId, int>
    var incomingCalls: map<CallId, IncomingCall>
    var pstnFallbacks: map<CallId, PstnFallback>
    var callLocks: set<CallId>
    var originByBridge: map<BridgeId, CallId>
    var bridgeByOrigin: map<CallId, BridgeId>
    // The threads in flight and what happened so far.
    ghost var threads: Threads
    ghost var history: History

    ghost function View(): State
      reads this
    {
      State(CallMaps(incomingCalls, pstnFallbacks, callLocks, callRingTime),
            BridgeMaps(contactDialers, dialersByAor, callerLegByBridge, originByBridge, bridgeByOrigin),
            threads, history)
    }

    ghost predicate Valid()
      reads this
    {
      Regular(View())
    }

    constructor ()
      ensures View() == Initial && Valid()
    {
      contactDialers, dialersByAor, callerLegByBridge := map[], map[], map[];
      callRingTime, incomingCalls, pstnFallbacks, callLocks := map[], map[], map[], {};
      originByBridge, bridgeByOrigin := map[], map[];
      threads, history := Initial.threads, Initial.history;
      new;
      InitialIsSafe(Run([Initial], []));
    }

    ghost method Record(e: Effect)
      modifies this`history
      ensures View() == Emit(old(View()), e)
    {
      history := history.(trace := Then(history.trace, e));
    }

    /** The threads of a call are now as in `v`. */
    ghost method Note(c: CallId, v: Call)
      modifies this`threads
      ensures threads == old(threads).(ofCall :=
          old(threads).ofCall[c := CallThreads(v.requested, v.send, v.timer, v.blocks)])
    {
      threads := threads.(ofCall := threads.ofCall[c := CallThreads(v.requested, v.send, v.timer, v.blocks)]);
    }

    // ---- The two halves of a block ----

    /** Enter: the threads are as the block says; the dictionaries are only read. */
    ghost method Enters(c: CallId, did: Did, before: State)
      requires View() == if did.effect.Some? then Emit(before, did.effect.value) else before
      requires did.call == CallOf(before, c).(requested := did.call.requested, send := did.call.send,
          timer := did.call.timer, blocks := did.call.blocks)
      modifies this`threads
      ensures View() == Done(before, c, did)
    {
      PutSame(View(), c);
      Note(c, did.call);
    }

    /** Leave: write what the block was going to write. */
    method WriteAndLeave(c: CallId, ghost w: Worker, incoming: Option<IncomingCall>, fallback: Option<PstnFallback>)
      requires w in CallOf(View(), c).blocks && (w.Sender? ==> fallback.None?)
      requires CallOf(View(), c).blocks[w].incoming == incoming && CallOf(View(), c).blocks[w].fallback == fallback
      modifies this`incomingCalls, this`pstnFallbacks, this`threads
      ensures View() == Finish(old(View()), c, w)
    {
      ghost var did := Leave(c, CallOf(View(), c), w);
      PutSame(View(), c);
      if incoming.Some? {
        incomingCalls := incomingCalls[c := incoming.value];
      }
      if fallback.Some? {
        pstnFallbacks := pstnFallbacks[c := fallback.value];
      }
      Note(c, did.call);
    }

    // ---- Blocks of the bus, of a dialer, and of the stasis thread ----

    /** `_cancel_pstn_fallback` up to its write; fails exactly when the assertion of the source does. */
    method ReadFallback(callId: CallId) returns (ok: bool, plan: Option<PstnFallback>)
      modifies this`history
      ensures ok <==> callId in callLocks || callId !in pstnFallbacks
      ensures plan == if callId in callLocks && callId in pstnFallbacks && !pstnFallbacks[callId].Quiet()
          then Some(FallbackCancelled) else None
      ensures View() == if plan.Some? && pstnFallbacks[callId].Dialing?
          then Emit(old(View()), HungUp(pstnFallbacks[callId].leg)) else old(View())
    {
      if callId !in callLocks {
        return callId !in pstnFallbacks, None;
      }
      plan := None;
      if callId in pstnFallbacks {
        match pstnFallbacks[callId] {
          case FallbackCancelled =>
          case DialAnswered(_) =>
          case FallbackPending => plan := Some(FallbackCancelled);
          case Triggering => plan := Some(FallbackCancelled);
          case Dialing(channel) =>
            Record(HungUp(channel));
            plan := Some(FallbackCancelled);
        }
      }
      return true, plan;
    }

    /** A failed assertion changes nothing. */
    method CancelFallbackLocked(callId: CallId, ghost w: Worker) returns (ok: bool)
      requires w !in CallOf(View(), callId).blocks && !w.Sender?
      modifies this`pstnFallbacks, this`incomingCalls, this`threads, this`history
      ensures ok <==> !AssertionFails(CallOf(old(View()), callId))
      ensures View() == if ok then CancelFallback(old(View()), callId, w) else old(View())
    {
      ghost var before := View();
      ghost var did := EnterCancelFallback(callId, CallOf(before, callId), w, callId in before.calls.locks);
      FallbackPlan(before, callId, w);
      var plan;
      ok, plan := ReadFallback(callId);
      if !ok {
        return;
      }
      Enters(callId, did, before);
      DoneIs(before, callId, did);
      if plan.Some? {
        WriteAndLeave(callId, w, None, plan);
      }
    }

    /** `cancel_push_mobile` up to its write. */
    method ReadPush(callId: CallId) returns (plan: Option<IncomingCall>)
      modifies this`history
      ensures plan == if callId in incomingCalls && !incomingCalls[callId].Terminal()
          then Some(PushCancelled(incomingCalls[callId].info)) else None
      ensures View() == if callId in incomingCalls && incomingCalls[callId].Notified?
                        then Emit(old(View()), PushCancelSent(callId, incomingCalls[callId].info)) else old(View())
    {
      plan := None;
      if callId in incomingCalls {
        match incomingCalls[callId] {
          case Received(_) =>
          case PushCancelled(_) =>
          case Notified(info) =>
            Record(PushCancelSent(callId, info));
            plan := Some(PushCancelled(info));
          case Pending(info) => plan := Some(PushCancelled(info));
        }
      }
    }

    method CancelPushLocked(callId: CallId, ghost w: Worker)
      requires w !in CallOf(View(), callId).blocks
      modifies this`pstnFallbacks, this`incomingCalls, this`threads, this`history
      ensures View() == CancelPush(old(View()), callId, w)
    {
      ghost var before := View();
      ghost var did := EnterCancelPush(callId, CallOf(before, callId), w, callId in before.calls.locks);
      PushPlan(before, callId, w);
      var plan := ReadPush(callId);
      Enters(callId, did, before);
      DoneIs(before, callId, did);
      if plan.Some? {
        WriteAndLeave(callId, w, plan, None);
      }
    }

    /** The assertion holds whenever the dictionaries about the call agree. */
    method CancelPstnFallback(callId: CallId, ghost thread: nat) returns (ok: bool)
      requires Valid() && CanMove(CallOf(View(), callId), CancelsFallback(Bus(thread)))
      modifies this
      ensures Valid() && View() == if ok then CancelFallback(old(View()), callId, Bus(thread)) else old(View())
      ensures ok <==> callId in old(callLocks) || callId !in old(pstnFallbacks)
      ensures Keyed(CallOf(old(View()), callId)) ==> ok
    {
      BlockKeepsRegular(View(), callId, CancelsFallback(Bus(thread)), Bus(thread));
      ok := CancelFallbackLocked(callId, Bus(thread));
    }

    method CancelPushMobile(callId: CallId, ghost thread: nat)
      requires Valid() && CanMove(CallOf(View(), callId), CancelsPush(Bus(thread)))
      modifies this
      ensures Valid() && View() == CancelPush(old(View()), callId, Bus(thread))
    {
      BlockKeepsRegular(View(), callId, CancelsPush(Bus(thread)), Bus(thread));
      CancelPushLocked(callId, Bus(thread));
    }

    method CompletePendingPushMobile(callId: CallId, ghost thread: nat)
      requires Valid() && CanMove(CallOf(View(), callId), CompletesPush(Bus(thread)))
      modifies this
      ensures Valid() && View() == CompletePush(old(View()), callId, Bus(thread))
    {
      ghost var before := View();
      BlockKeepsRegular(before, callId, CompletesPush(Bus(thread)), Bus(thread));
      var plan: Option<IncomingCall> := None;
      if callId in incomingCalls {
        match incomingCalls[callId] {
          case Received(_) =>
          case PushCancelled(_) =>
          case Notified(info) => plan := Some(Received(info));
          case Pending(info) => plan := Some(Received(info));
        }
      }
      CompletePlan(before, callId, Bus(thread));
      ghost var entered := EnterCompletePush(CallOf(before, callId), Bus(thread), callId in before.calls.locks).call;
      Enters(callId, Did(entered, None), before);
      DoneIs(before, callId, Did(entered, None));
      if plan.Some? {
        WriteAndLeave(callId, Bus(thread), plan, None);
      }
    }

    // ---- send_push_notification ----

    /** The first half, up to the confd lookup; also of a second request for the same call. */
    method SendPushFirstHalf(origin: CallId, pending: PushInfo, ringTimeout: int)
      modifies this
      ensures View() == PutCall(old(View()), origin, SendFirst(CallOf(old(View()), origin), pending, ringTimeout))
      ensures old(Valid()) && !CallOf(old(View()), origin).requested ==> Valid()
    {
      ghost var before := View();
      PutSame(before, origin);
      callLocks := callLocks + {origin};
      incomingCalls := incomingCalls[origin := Pending(pending)];
      callRingTime := callRingTime[origin := ringTimeout];
      Note(origin, SendFirst(CallOf(before, origin), pending, ringTimeout));
      if Regular(before) && !CallOf(before, origin).requested {
        StepKeepsRegular(before, OnCall(origin, SendsFirst(pending, ringTimeout)));
      }
    }

    /** The second half, with the answer of the confd lookup. */
    method SendPushSecondHalf(origin: CallId, pending: PushInfo, fallbackEnabled: bool)
      requires Valid() && CanMove(CallOf(View(), origin), Sends(fallbackEnabled))
          && CallOf(View(), origin).send == Some(pending)
      modifies this
      ensures Valid() && View() == SendSecond(old(View()), origin, fallbackEnabled)
    {
      ghost var before := View();
      ghost var did := EnterSend(origin, CallOf(before, origin), fallbackEnabled);
      SenderIsOut(before, origin);
      SendPlan(before, origin, fallbackEnabled);
      BlockKeepsRegular(before, origin, Sends(fallbackEnabled), Sender);
      if origin !in incomingCalls || !incomingCalls[origin].Pending? {
        Enters(origin, did, before);
        DoneIs(before, origin, did);
        return;
      }
      Record(PushSent(origin, pending));
      Enters(origin, did, before);
      DoneIs(before, origin, did);
      NotifiedAndArmed(origin, pending, fallbackEnabled);
    }

    /** Its writes, and the start of the timer. */
    method NotifiedAndArmed(origin: CallId, pending: PushInfo, fallbackEnabled: bool)
      requires Sender in CallOf(View(), origin).blocks
      requires CallOf(View(), origin).blocks[Sender]
          == Block(true, Some(Notified(pending)), if fallbackEnabled then Some(FallbackPending) else None)
      modifies this
      ensures View() == Finish(old(View()), origin, Sender)
    {
      ghost var entered := View();
      ghost var did := Leave(origin, CallOf(entered, origin), Sender);
      PutSame(entered, origin);
      incomingCalls := incomingCalls[origin := Notified(pending)];
      if fallbackEnabled {
        pstnFallbacks := pstnFallbacks[origin := FallbackPending];
        Record(TimerStarted(origin));
      }
      Note(origin, did.call);
    }

    // ---- _pstn_fallback ----

    /** Phase 1 of the timer callback. */
    method TriggerFallback(callId: CallId) returns (triggered: bool)
      requires Valid() && CanMove(CallOf(View(), callId), Triggers)
      modifies this
      ensures Valid() && View() == Phase1(old(View()), callId)
      ensures triggered <==> Get(old(pstnFallbacks), callId) == Some(FallbackPending)
    {
      ghost var before := View();
      BlockKeepsRegular(before, callId, Triggers, Timer);
      assert Base(callId, KnownOf(before, callId));
      triggered := callId in pstnFallbacks && pstnFallbacks[callId].FallbackPending?;
      Enters(callId, Did(EnterPhase1(CallOf(before, callId)), None), before);
      if triggered {
        WriteAndLeave(callId, Timer, None, Some(Triggering));
      }
    }

    /** The first half of Phase 2, which takes no lock: the push is read once, and confd says whether the user can be
        reached; nothing but the thread moves on. */
    method ReadActionablePush(callId: CallId, usable: bool) returns (pending: Option<PushInfo>)
      requires Valid() && CanMove(CallOf(View(), callId), ReadsPush(usable))
      modifies this`threads
      ensures Valid() && View() == PutCall(old(View()), callId, Phase2Read(CallOf(old(View()), callId), usable))
      ensures pending.Some? <==> usable && callId in incomingCalls && !incomingCalls[callId].Terminal()
      ensures pending.Some? ==> pending.value == incomingCalls[callId].info
      ensures CallOf(View(), callId).timer == Some(if pending.Some? then FindBridge(pending.value) else Aborting)
    {
      ghost var before := View();
      StepKeepsRegular(before, OnCall(callId, ReadsPush(usable)));
      pending := None;
      if callId in incomingCalls && usable {
        match incomingCalls[callId] {
          case Received(_) =>
          case PushCancelled(_) =>
          case Notified(info) => pending := Some(info);
          case Pending(info) => pending := Some(info);
        }
      }
      Enters(callId, Did(Phase2Read(CallOf(before, callId), usable), None), before);
      DoneIs(before, callId, Did(Phase2Read(CallOf(before, callId), usable), None));
    }

    /** The second half: the bridge of the call and its caller; `callerUp` is what ARI says of the caller. */
    method FindFallbackBridge(callId: CallId, callerUp: bool) returns (found: Option<(BridgeId, ChannelId)>)
      requires Valid() && CallOf(View(), callId).timer.Some? && CallOf(View(), callId).timer.value.FindBridge?
      modifies this`threads
      ensures Valid() && View() == PutCall(old(View()), callId, Phase2Bridge(CallOf(old(View()), callId), found))
      ensures found.Some? <==>
                callerUp && callId in bridgeByOrigin && bridgeByOrigin[callId] in callerLegByBridge
      ensures found.Some? ==> found.value == (bridgeByOrigin[callId], callerLegByBridge[bridgeByOrigin[callId]])
      ensures CallOf(View(), callId).timer ==
              Some(if found.None? then Aborting
                   else Commit(CallOf(old(View()), callId).timer.value.info, found.value.0, found.value.1))
    {
      ghost var before := View();
      found := None;
      if callId in bridgeByOrigin && bridgeByOrigin[callId] in callerLegByBridge && callerUp {
        found := Some((bridgeByOrigin[callId], callerLegByBridge[bridgeByOrigin[callId]]));
      }
      StepKeepsRegular(before, OnCall(callId, FindsBridge(found)));
      Enters(callId, Did(Phase2Bridge(CallOf(before, callId), found), None), before);
      DoneIs(before, callId, Did(Phase2Bridge(CallOf(before, callId), found), None));
    }

    /** Phase 3 up to the originate; `leg` is what ARI answers. */
    method OriginateLeg(callId: CallId, leg: Option<ChannelId>) returns (up: bool)
      requires Valid() && CanMove(CallOf(View(), callId), Originates(leg)) && Timer !in CallOf(View(), callId).blocks
      modifies this
      ensures Valid() && View() == Done(old(View()), callId, EnterPhase3(callId, CallOf(old(View()), callId), leg))
      ensures up <==> Get(old(pstnFallbacks), callId) == Some(Triggering) && leg.Some?
      ensures up <==> Timer in CallOf(View(), callId).blocks
      ensures up ==>
                && CallOf(View(), callId).blocks[Timer] == Block(true, None, Some(Dialing(leg.value)))
                && CallOf(View(), callId).timer == Some(LegUp)
    {
      ghost var before := View();
      ghost var did := EnterPhase3(callId, CallOf(before, callId), leg);
      StepKeepsRegular(before, OnCall(callId, Originates(leg)));
      up := callId in pstnFallbacks && pstnFallbacks[callId].Triggering? && leg.Some?;
      if up {
        Record(LegOriginated(callId, leg.value, CallOf(before, callId).timer.value.bridge));
      }
      Enters(callId, did, before);
      DoneIs(before, callId, did);
    }

    /** The rest of Phase 3: cancel the push, and remember the leg. */
    method RememberLeg(callId: CallId, leg: ChannelId)
      requires Valid() && CanMove(CallOf(View(), callId), CancelsPushOfLeg)
      requires CallOf(View(), callId).blocks[Timer] == Block(true, None, Some(Dialing(leg)))
      modifies this
      ensures Valid()
      ensures View() == Finish(Done(old(View()), callId, Phase3CancelPush(callId, CallOf(old(View()), callId))),
          callId, Timer)
    {
      ghost var before := View();
      ghost var did := Phase3CancelPush(callId, CallOf(before, callId));
      LegPlan(before, callId, leg);
      RememberingKeepsRegular(before, callId);
      var plan := ReadPush(callId);
      Enters(callId, did, before);
      DoneIs(before, callId, did);
      WriteAndLeave(callId, Timer, plan, Some(Dialing(leg)));
    }

    /** Phase 3: originate the leg, cancel the push, and remember the leg. */
    method CommitFallback(callId: CallId, leg: Option<ChannelId>)
      requires Valid() && CanMove(CallOf(View(), callId), Originates(leg)) && Timer !in CallOf(View(), callId).blocks
      modifies this
      ensures Valid() && View() == Phase3(old(View()), callId, leg)
    {
      var up := OriginateLeg(callId, leg);
      if up {
        RememberLeg(callId, leg.value);
      }
    }

    /** The handler of an early exit from Phase 2 or of a refused originate. */
    method AbortFallback(callId: CallId)
      requires Valid() && CanMove(CallOf(View(), callId), Aborts)
      modifies this
      ensures Valid() && View() == Abort(old(View()), callId)
    {
      ghost var before := View();
      BlockKeepsRegular(before, callId, Aborts, Timer);
      assert Base(callId, KnownOf(before, callId));
      var aborting := callId in pstnFallbacks && pstnFallbacks[callId].Triggering?;
      Enters(callId, Did(EnterAbort(CallOf(before, callId)), None), before);
      if aborting {
        WriteAndLeave(callId, Timer, None, Some(FallbackCancelled));
      }
    }

    // ---- Stasis handlers ----

    method DialAllContacts(caller: ChannelId, origin: CallId, aor: Aor, futureBridge: BridgeId)
      requires Valid() && Free(View()) && threads.stasis.Idle? && futureBridge !in history.dialed
      modifies this
      ensures Valid() && View() == Dial(old(View()), caller, origin, aor, futureBridge)
    {
      DialKeepsRegular(View(), caller, origin, aor, futureBridge);
      RegisterDialer(caller, origin, aor, futureBridge);
      history := history.(dialed := history.dialed[futureBridge := {}]);
    }

    method RegisterDialer(caller: ChannelId, origin: CallId, aor: Aor, futureBridge: BridgeId)
      modifies this`contactDialers, this`dialersByAor, this`callerLegByBridge, this`originByBridge, this`bridgeByOrigin
      ensures View() == old(View()).(bridges := AddDialer(old(View()).bridges, caller, origin, aor, futureBridge))
    {
      contactDialers := contactDialers[futureBridge := Dialer(caller, aor)];
      var dialers := if aor in dialersByAor then dialersByAor[aor] else {};
      dialersByAor := dialersByAor[aor := dialers + {futureBridge}];
      callerLegByBridge := callerLegByBridge[futureBridge := caller];
      originByBridge := originByBridge[futureBridge := origin];
      bridgeByOrigin := bridgeByOrigin[origin := futureBridge];
    }

    /** Discard the dialer from every set of the map and drop the sets that become empty. */
    method UnregisterDialerByAor(dialer: BridgeId)
      modifies this`dialersByAor
      ensures dialersByAor == Without(old(dialersByAor), dialer)
    {
      ghost var before := dialersByAor;
      var todo := dialersByAor.Keys;
      while todo != {}
        invariant todo <= before.Keys && dialersByAor.Keys <= before.Keys
        invariant forall a :: a in todo ==> a in dialersByAor && dialersByAor[a] == before[a]
        invariant forall a :: a in before && a !in todo ==>
                    (a in dialersByAor <==> before[a] - {dialer} != {})
                        && (a in dialersByAor ==> dialersByAor[a] == before[a] - {dialer})
        decreases todo
      {
        var aor :| aor in todo;
        todo := todo - {aor};
        var dialers := dialersByAor[aor] - {dialer};
        dialersByAor := if dialers == {} then dialersByAor - {aor} else dialersByAor[aor := dialers];
      }
    }

    method TakeOut(futureBridge: BridgeId)
      modifies this`contactDialers, this`dialersByAor
      ensures View() == old(View()).(bridges := DropDialer(old(View()).bridges, futureBridge))
    {
      contactDialers := contactDialers - {futureBridge};
      UnregisterDialerByAor(futureBridge);
    }

    // ---- _prune_call_state: pop by pop, each a step of its own ----

    method PopOrigin(futureBridge: BridgeId) returns (origin: CallId)
      requires Valid() && Free(View()) && threads.stasis.Pruning? && threads.stasis.bridge == futureBridge
      modifies this`originByBridge, this`threads
      ensures Valid() && View() == PopNext(old(View()))
      ensures futureBridge in old(originByBridge) && origin == old(originByBridge)[futureBridge]
    {
      PopKeepsRegular(View());
      origin := originByBridge[futureBridge];
      originByBridge := originByBridge - {futureBridge};
      threads := threads.(stasis := Popping(futureBridge, origin, PopBridge, threads.stasis.next));
    }

    method PopBridgeOf(origin: CallId)
      requires Valid() && Free(View()) && threads.stasis.Popping? && threads.stasis.pruned == origin
          && threads.stasis.pop == PopBridge
      modifies this`bridgeByOrigin, this`threads
      ensures Valid() && View() == PopNext(old(View()))
    {
      PopKeepsRegular(View());
      bridgeByOrigin := bridgeByOrigin - {origin};
      threads := threads.(stasis := Popping(threads.stasis.bridge, origin, PopEntry(OfRingTime), threads.stasis.next));
    }

    method PopRingTime(origin: CallId)
      requires Valid() && AboutToPop(View(), origin, OfRingTime)
      modifies this`callRingTime, this`threads
      ensures Valid() && View() == PopNext(old(View()))
      ensures callRingTime == old(callRingTime) - {origin}
          && threads == ThreadsAfterPop(old(View()), origin, OfRingTime)
    {
      PopKeepsRegular(View());
      PopEntryIs(View(), origin, OfRingTime);
      callRingTime := callRingTime - {origin};
      threads := ThreadsAfterPop(old(View()), origin, OfRingTime);
    }

    method PopFallback(origin: CallId)
      requires Valid() && AboutToPop(View(), origin, OfFallback)
      modifies this`pstnFallbacks, this`threads
      ensures Valid() && View() == PopNext(old(View()))
      ensures pstnFallbacks == old(pstnFallbacks) - {origin}
          && threads == ThreadsAfterPop(old(View()), origin, OfFallback)
    {
      PopKeepsRegular(View());
      PopEntryIs(View(), origin, OfFallback);
      pstnFallbacks := pstnFallbacks - {origin};
      threads := ThreadsAfterPop(old(View()), origin, OfFallback);
    }

    method PopLock(origin: CallId)
      requires Valid() && AboutToPop(View(), origin, OfLock)
      modifies this`callLocks, this`threads
      ensures Valid() && View() == PopNext(old(View()))
      ensures callLocks == old(callLocks) - {origin} && threads == ThreadsAfterPop(old(View()), origin, OfLock)
    {
      PopKeepsRegular(View());
      PopEntryIs(View(), origin, OfLock);
      callLocks := callLocks - {origin};
      threads := ThreadsAfterPop(old(View()), origin, OfLock);
    }

    method PopIncoming(origin: CallId)
      requires Valid() && AboutToPop(View(), origin, OfIncoming)
      modifies this`incomingCalls, this`threads
      ensures Valid() && View() == PopNext(old(View()))
      ensures incomingCalls == old(incomingCalls) - {origin}
          && threads == ThreadsAfterPop(old(View()), origin, OfIncoming)
    {
      PopKeepsRegular(View());
      PopEntryIs(View(), origin, OfIncoming);
      incomingCalls := incomingCalls - {origin};
      threads := ThreadsAfterPop(old(View()), origin, OfIncoming);
    }

    method PopCaller(futureBridge: BridgeId)
      requires Valid() && Free(View()) && threads.stasis.Closing? && threads.stasis.bridge == futureBridge
      modifies this`callerLegByBridge, this`threads
      ensures Valid() && View() == PopNext(old(View()))
      ensures callerLegByBridge == old(callerLegByBridge) - {futureBridge}
          && threads == old(threads).(stasis := Onwards(old(threads.stasis.next)))
    {
      PopKeepsRegular(View());
      callerLegByBridge := callerLegByBridge - {futureBridge};
      threads := threads.(stasis := Onwards(threads.stasis.next));
    }

    /** The bridge leaves the two maps between bridges and origin calls. */
    method PopBridges(futureBridge: BridgeId, ghost next: seq<BridgeId>) returns (origin: CallId)
      requires Valid() && Free(View()) && threads.stasis == Pruning(futureBridge, next)
      modifies this`originByBridge, this`bridgeByOrigin, this`threads
      ensures Valid() && threads == old(threads).(stasis := Popping(futureBridge, origin, PopEntry(OfRingTime), next))
      ensures futureBridge in old(originByBridge) && origin == old(originByBridge)[futureBridge]
      ensures originByBridge == old(originByBridge) - {futureBridge} && bridgeByOrigin == old(bridgeByOrigin) - {origin}
    {
      origin := PopOrigin(futureBridge);
      PopBridgeOf(origin);
    }

    /** The ring time and the fallback of the call leave theirs. */
    method PopEarlyEntries(origin: CallId, ghost futureBridge: BridgeId, ghost next: seq<BridgeId>)
      requires Valid() && Free(View()) && threads.stasis == Popping(futureBridge, origin, PopEntry(OfRingTime), next)
      modifies this`callRingTime, this`pstnFallbacks, this`threads
      ensures Valid() && callRingTime == old(callRingTime) - {origin} && pstnFallbacks == old(pstnFallbacks) - {origin}
      ensures threads == ThreadsPopping(old(View()), origin, Popping(futureBridge, origin, PopEntry(OfLock), next))
    {
      ghost var before := View();
      PopRingTime(origin);
      PoppingOn(before, View(), origin, threads.stasis, Popping(futureBridge, origin, PopEntry(OfLock), next));
      PopFallback(origin);
    }

    /** Its lock and its push leave theirs. */
    method PopLateEntries(origin: CallId, ghost futureBridge: BridgeId, ghost next: seq<BridgeId>)
      requires Valid() && Free(View()) && threads.stasis == Popping(futureBridge, origin, PopEntry(OfLock), next)
      modifies this`callLocks, this`incomingCalls, this`threads
      ensures Valid() && callLocks == old(callLocks) - {origin} && incomingCalls == old(incomingCalls) - {origin}
      ensures threads == ThreadsPopping(old(View()), origin, Closing(futureBridge, next))
    {
      ghost var before := View();
      PopLock(origin);
      PoppingOn(before, View(), origin, threads.stasis, Closing(futureBridge, next));
      PopIncoming(origin);
    }

    method PopEntries(origin: CallId, ghost futureBridge: BridgeId, ghost next: seq<BridgeId>)
      requires Valid() && Free(View()) && threads.stasis == Popping(futureBridge, origin, PopEntry(OfRingTime), next)
      modifies this`callRingTime, this`pstnFallbacks, this`callLocks, this`incomingCalls, this`threads
      ensures Valid() && View().calls == ForgetCall(old(View()).calls, origin)
      ensures threads == ThreadsPopping(old(View()), origin, Closing(futureBridge, next))
    {
      ghost var before := View();
      PopEarlyEntries(origin, futureBridge, next);
      PoppingOn(before, View(), origin, threads.stasis, Closing(futureBridge, next));
      PopLateEntries(origin, futureBridge, next);
    }

    /** All the pops, when nothing runs in between: the bridge and its call leave every dictionary, whatever blocks
        other threads are in, and nothing else does. */
    method PruneCallState(futureBridge: BridgeId, ghost next: seq<BridgeId>)
      requires Valid() && Free(View()) && threads.stasis == Pruning(futureBridge, next)
      modifies this
      ensures Valid() && futureBridge in old(originByBridge) && history == old(history)
      ensures threads == ThreadsPopping(old(View()), old(originByBridge)[futureBridge], Onwards(next))
      ensures View().bridges == WithoutBridge(old(View()).bridges, futureBridge, old(originByBridge)[futureBridge])
      ensures View().calls == ForgetCall(old(View()).calls, old(originByBridge)[futureBridge])
    {
      var origin := PopBridges(futureBridge, next);
      PopEntries(origin, futureBridge, next);
      PopCaller(futureBridge);
    }

    /** The locked block of `join_bridge`. */
    method JoinLocked(channel: ChannelId, futureBridge: BridgeId)
      requires Valid() && Enabled(View(), StartsJoin(channel, futureBridge))
      modifies this
      ensures Valid()
      ensures View() == Headed(old(View()), channel, futureBridge)
    {
      HeadKeepsRegular(View(), channel, futureBridge);
      JoinBlock(channel, futureBridge);
    }

    /** The block by itself, for the call of the bridge if there is one. */
    method JoinBlock(channel: ChannelId, futureBridge: BridgeId)
      requires Enabled(View(), StartsJoin(channel, futureBridge))
      modifies this`pstnFallbacks, this`incomingCalls, this`threads, this`history
      ensures View() == Headed(old(View()), channel, futureBridge)
    {
      ghost var call := Get(originByBridge, futureBridge);
      if futureBridge in originByBridge {
        JoinCall(channel, originByBridge[futureBridge]);
      }
      threads := threads.(stasis := Joining(channel, futureBridge, call));
    }

    /** The block itself: without a lock nothing is done. */
    method JoinCall(channel: ChannelId, callId: CallId)
      requires CanMove(CallOf(View(), callId), Joins(channel))
      modifies this`pstnFallbacks, this`incomingCalls, this`threads, this`history
      ensures View() == WholeMove(old(View()), Some(callId), Joins(channel))
    {
      ghost var before := View();
      ghost var did := EnterJoin(callId, CallOf(before, callId), channel);
      if callId in callLocks && callId in pstnFallbacks && pstnFallbacks[callId] == Dialing(channel) {
        Record(LegAnswered(callId, channel));
        Enters(callId, did, before);
        DoneIs(before, callId, did);
        WriteAndLeave(callId, Stasis, None, Some(DialAnswered(channel)));
      } else if callId in callLocks {
        var ok := CancelFallbackLocked(callId, Stasis);
      } else {
        Enters(callId, did, before);
        DoneIs(before, callId, did);
      }
    }

    /** Take the dialer out and stop it, or hang up a late channel. */
    method TakeDialer(channel: ChannelId, futureBridge: BridgeId) returns (found: bool)
      requires Valid() && Free(View())
      requires threads.stasis.Joining? && threads.stasis.channel == channel && threads.stasis.bridge == futureBridge
      modifies this
      ensures Valid() && View() == JoinTake(old(View()), channel, futureBridge, old(threads.stasis.call))
      ensures found <==> futureBridge in old(contactDialers)
    {
      ghost var before := View();
      TakeKeepsRegular(before);
      found := futureBridge in contactDialers;
      if found {
        TakeOut(futureBridge);
        threads := threads.(stasis := Stopping(channel, futureBridge, threads.stasis.call));
      } else {
        Record(HungUp(channel));
        threads := threads.(stasis := Idle);
      }
    }

    /** Answer and bridge; `outcome` is what ARI answers. */
    method Connect(channel: ChannelId, futureBridge: BridgeId, outcome: JoinOutcome)
      requires Valid() && Free(View()) && threads.stasis.Stopping? && futureBridge in callerLegByBridge
      requires threads.stasis.channel == channel && threads.stasis.bridge == futureBridge
      modifies this
      ensures Valid() && View() == JoinConnect(old(View()), channel, futureBridge, old(threads.stasis.call), outcome)
      ensures View().calls == old(View()).calls && View().bridges == old(View()).bridges
      ensures threads == old(threads).(stasis :=
                if outcome.CallerLeft? then Refusing(futureBridge, old(threads.stasis.call))
                else Pruning(futureBridge, []))
      ensures history.trace ==
              if outcome.CallerLeft? then Then(old(history.trace), HungUp(channel))
              else if outcome == Bridged || outcome == AriFailed(true) then
                Then(old(history.trace), BridgeCreated(futureBridge, channel, callerLegByBridge[futureBridge]))
              else old(history.trace)
    {
      ConnectKeepsRegular(View(), outcome);
      match outcome {
        case CallerLeft =>
          Record(HungUp(channel));
          threads := threads.(stasis := Refusing(futureBridge, threads.stasis.call));
        case ChannelLeft =>
          threads := threads.(stasis := Pruning(futureBridge, []));
        case Bridged =>
          Record(BridgeCreated(futureBridge, channel, callerLegByBridge[futureBridge]));
          threads := threads.(stasis := Pruning(futureBridge, []));
        case AriFailed(bridgeCreated) =>
          if bridgeCreated {
            Record(BridgeCreated(futureBridge, channel, callerLegByBridge[futureBridge]));
          }
          threads := threads.(stasis := Pruning(futureBridge, []));
      }
    }

    /** The caller left: its push is cancelled. */
    method RefusePush(futureBridge: BridgeId)
      requires Valid() && Enabled(View(), RefusesPush) && threads.stasis.bridge == futureBridge
      modifies this
      ensures Valid()
      ensures View() == PushRefused(old(View()))
    {
      RefuseKeepsRegular(View());
      CancelPushOf(futureBridge, []);
    }

    /** The cancellation of the push of the call of a bridge, if there is a call; the bridge is pruned next. */
    method CancelPushOf(futureBridge: BridgeId, ghost next: seq<BridgeId>)
      requires CanStasisMove(View(), Get(originByBridge, futureBridge), CancelsPush(Stasis))
      modifies this`pstnFallbacks, this`incomingCalls, this`threads, this`history
      ensures View() == SetStasis(WholeMove(old(View()), Get(originByBridge, futureBridge), CancelsPush(Stasis)),
                                  Pruning(futureBridge, next))
    {
      if futureBridge in originByBridge {
        CancelPushLocked(originByBridge[futureBridge], Stasis);
      }
      threads := threads.(stasis := Pruning(futureBridge, next));
    }

    /** Answer and bridge, or refuse; the handler of one channel, when nothing runs between its parts. */
    method ConnectOrRefuse(channel: ChannelId, futureBridge: BridgeId, outcome: JoinOutcome)
      requires Valid() && Free(View()) && threads.stasis.Stopping?
      requires futureBridge in callerLegByBridge && futureBridge in originByBridge
      requires threads.stasis == Stopping(channel, futureBridge, Some(originByBridge[futureBridge]))
      requires LockIsFree(CallOf(View(), originByBridge[futureBridge]))
      modifies this
      ensures Valid() && Free(View()) && threads.stasis == Pruning(futureBridge, [])
      ensures View().bridges == old(View()).bridges
      ensures ForgetCall(View().calls, originByBridge[futureBridge])
          == ForgetCall(old(View()).calls, originByBridge[futureBridge])
      ensures GrowsBy(old(history.trace), history.trace, if outcome.CallerLeft? then {channel} else {},
                      if Creates(outcome) then {(channel, callerLegByBridge[futureBridge])} else {}, futureBridge)
    {
      ghost var before, callId := history.trace, originByBridge[futureBridge];
      Connect(channel, futureBridge, outcome);
      ConnectingGrows(before, history.trace, channel, futureBridge, callerLegByBridge[futureBridge], outcome);
      if outcome.CallerLeft? {
        ghost var connected := history.trace;
        Refuse(futureBridge);
        GrowsOn(before, connected, history.trace, {channel}, {}, {}, futureBridge);
      }
    }

    /** The rest of a join whose caller left: nothing but the push of the call changes. */
    method Refuse(futureBridge: BridgeId)
      requires Valid() && Free(View()) && futureBridge in originByBridge
      requires threads.stasis == Refusing(futureBridge, Some(originByBridge[futureBridge]))
      requires LockIsFree(CallOf(View(), originByBridge[futureBridge]))
      modifies this
      ensures Valid() && Free(View()) && threads.stasis == Pruning(futureBridge, [])
      ensures View().bridges == old(View()).bridges
      ensures ForgetCall(View().calls, originByBridge[futureBridge])
          == ForgetCall(old(View()).calls, originByBridge[futureBridge])
      ensures GrowsBy(old(history.trace), history.trace, {}, {}, futureBridge)
    {
      ghost var connected, callId := View(), originByBridge[futureBridge];
      RefuseCanEnter(connected, callId);
      RefusePush(futureBridge);
      WholeKeepsOthers(connected, callId, CancelsPush(Stasis));
      WholeKeepsBridges(connected, Some(callId), CancelsPush(Stasis));
      CancellingOnlyCancels(connected, callId, futureBridge);
    }

    /** The whole handler, when nothing runs between its parts.  A late channel, which finds no dialer, changes no
        bridge and, if no bridge waits for it, is only hung up; otherwise the dialer, the bridge and its call leave
        every dictionary, and nothing else does.  Exactly a late channel, or one whose caller left, is hung up, and a
        leg of the call that rings elsewhere; and the channel is put together exactly with the caller of the bridge,
        exactly when ARI does not fail before that. */
    method JoinBridge(channel: ChannelId, futureBridge: BridgeId, outcome: JoinOutcome)
      requires Valid() && Free(View()) && threads.stasis.Idle?
      requires futureBridge in originByBridge ==> LockIsFree(CallOf(View(), originByBridge[futureBridge]))
      modifies this
      ensures Valid() && Free(View()) && threads.stasis.Idle?
      ensures futureBridge !in old(originByBridge) ==> View() == Emit(old(View()), HungUp(channel))
      ensures futureBridge !in old(contactDialers) ==> View().bridges == old(View()).bridges
      ensures futureBridge in old(originByBridge) && futureBridge !in old(contactDialers) ==>
                var c := old(originByBridge)[futureBridge];
                ForgetCall(View().calls, c) == ForgetCall(old(View()).calls, c)
      ensures futureBridge in old(contactDialers) ==>
                && futureBridge in old(originByBridge)
                && View().bridges == WithoutBridge(DropDialer(old(View()).bridges, futureBridge), futureBridge,
                    old(originByBridge)[futureBridge])
                && View().calls == ForgetCall(old(View()).calls, old(originByBridge)[futureBridge])
      ensures var found := futureBridge in old(contactDialers);
              GrowsBy(old(history.trace), history.trace,
                      OtherLeg(old(View()), channel, futureBridge)
                      + if !found || outcome.CallerLeft? then {channel} else {},
                      if found && Creates(outcome) then {(channel, old(callerLegByBridge)[futureBridge])} else {},
                      futureBridge)
    {
      ghost var before := View();
      ghost var call := Get(originByBridge, futureBridge);
      JoinCanEnter(before, channel, futureBridge);
      JoinLocked(channel, futureBridge);
      HeadFacts(before, channel, futureBridge);
      HeadHangsUp(before, channel, futureBridge);
      ghost var leg, headed := OtherLeg(before, channel, futureBridge), history.trace;
      var found := TakeDialer(channel, futureBridge);
      if !found {
        GrowsOn(before.history.trace, headed, history.trace, leg, {channel}, {}, futureBridge);
        return;
      }
      ghost var hungUp := if outcome.CallerLeft? then {channel} else {};
      ghost var created := if Creates(outcome) then {(channel, callerLegByBridge[futureBridge])} else {};
      ConnectOrRefuse(channel, futureBridge, outcome);
      GrowsOn(before.history.trace, headed, history.trace, leg, hungUp, created, futureBridge);
      PruneCallState(futureBridge, []);
    }

    // ---- notify_channel_gone ----

    /** The loop that marks a ringing PSTN leg as gone, one call after the other. */
    method MarkLegGone(channel: ChannelId)
      requires Valid() && Free(View()) && threads.stasis == Marking(channel, pstnFallbacks.Keys) && NoLockHeld(View())
      modifies this
      ensures Valid() && Free(View()) && threads.stasis == Marking(channel, {}) && NoLockHeld(View())
      ensures View().bridges == old(View()).bridges && history == old(history)
      ensures View().calls == MarkCalls(old(View()).calls, channel)
    {
      ghost var before := pstnFallbacks;
      var todo := pstnFallbacks.Keys;
      while todo != {}
        invariant Valid() && Free(View()) && threads.stasis == Marking(channel, todo) && NoLockHeld(View())
        invariant todo <= before.Keys && pstnFallbacks == MarkSome(before, before.Keys - todo, channel)
        invariant View().bridges == old(View()).bridges && history == old(history)
        invariant incomingCalls == old(incomingCalls) && callLocks == old(callLocks)
            && callRingTime == old(callRingTime)
        decreases todo
      {
        var trackedCallId :| trackedCallId in todo;
        MarkOne(channel, trackedCallId, todo);
        MarkSomeMore(before, todo, channel, trackedCallId);
        todo := todo - {trackedCallId};
      }
      assert before.Keys - todo == before.Keys;
    }

    method MarkOne(channel: ChannelId, callId: CallId, ghost todo: set<CallId>)
      requires Valid() && Free(View()) && threads.stasis == Marking(channel, todo) && callId in todo
          && NoLockHeld(View())
      modifies this`pstnFallbacks, this`threads
      ensures Valid() && Free(View()) && threads.stasis == Marking(channel, todo - {callId}) && NoLockHeld(View())
      ensures pstnFallbacks == if Get(old(pstnFallbacks), callId) == Some(Dialing(channel))
                               then old(pstnFallbacks)[callId := FallbackCancelled] else old(pstnFallbacks)
    {
      MarkKeepsRegular(View(), callId);
      MarkFallback(channel, callId, todo);
    }

    /** The block about one call. */
    method MarkFallback(channel: ChannelId, callId: CallId, ghost todo: set<CallId>)
      requires CanMove(CallOf(View(), callId), Marks(channel))
      modifies this`pstnFallbacks, this`threads
      ensures View() == GoneMark(old(View()), channel, todo, callId)
      ensures pstnFallbacks == if Get(old(pstnFallbacks), callId) == Some(Dialing(channel))
                               then old(pstnFallbacks)[callId := FallbackCancelled] else old(pstnFallbacks)
    {
      ghost var before := View();
      PutSame(before, callId);
      if callId in pstnFallbacks && pstnFallbacks[callId] == Dialing(channel) {
        pstnFallbacks := pstnFallbacks[callId := FallbackCancelled];
      }
      Note(callId, CallOf(before, callId));
      threads := threads.(stasis := Marking(channel, todo - {callId}));
    }

    /** The loop that asks every dialer whether it knows the channel; `dialed` is what the dialers hold. */
    method CollectDialers(channel: ChannelId, dialed: map<BridgeId, set<ChannelId>>) returns (toRemove: seq<BridgeId>)
      requires dialed == history.dialed
      modifies this`history
      ensures Enumerates(toRemove, Knowing(old(View()), channel))
      ensures history == old(history).(trace := RefuseCallers(old(history.trace), contactDialers, channel, toRemove))
      ensures forall b :: b in toRemove <==>
                b in contactDialers && (contactDialers[b].caller == channel || (b in dialed && channel in dialed[b]))
      ensures forall x :: history.trace.Has(HungUp(x)) <==>
                || old(history.trace).Has(HungUp(x))
                || (x != channel && exists b :: b in toRemove && contactDialers[b].caller == x)
    {
      ghost var before := View();
      toRemove := [];
      var todo := contactDialers.Keys;
      while todo != {}
        invariant todo <= contactDialers.Keys
        invariant forall i, j :: 0 <= i < j < |toRemove| ==> toRemove[i] != toRemove[j]
        invariant forall b :: b in toRemove ==> b in Knowing(before, channel) && b !in todo
        invariant forall b :: b in Knowing(before, channel) && b !in todo ==> b in toRemove
        invariant history == before.history.(trace :=
            RefuseCallers(before.history.trace, contactDialers, channel, toRemove))
        decreases todo
      {
        var key :| key in todo;
        todo := todo - {key};
        if contactDialers[key].caller == channel || (key in dialed && channel in dialed[key]) {
          assert (toRemove + [key])[..|toRemove|] == toRemove;
          if contactDialers[key].caller != channel {
            Record(HungUp(contactDialers[key].caller));
          }
          toRemove := toRemove + [key];
        }
      }
      forall x ensures history.trace.Has(HungUp(x)) <==>
                 || before.history.trace.Has(HungUp(x))
                 || (x != channel && exists b :: b in toRemove && contactDialers[b].caller == x) {
        RefusalsHangUp(before.history.trace, contactDialers, channel, toRemove, HungUp(x));
      }
    }

    /** The dialers that know the channel, each once: they are the ones to remove. */
    method CollectAll(channel: ChannelId, dialed: map<BridgeId, set<ChannelId>>) returns (toRemove: seq<BridgeId>)
      requires Valid() && Free(View()) && threads.stasis == Marking(channel, {}) && dialed == history.dialed
      modifies this`history, this`threads
      ensures Valid() && Enumerates(toRemove, Knowing(old(View()), channel))
      ensures View() == GoneCollect(old(View()), channel, toRemove)
    {
      toRemove := CollectDialers(channel, dialed);
      CollectingKeepsRegular(old(View()), toRemove);
      threads := threads.(stasis := if toRemove == [] then Idle else Removing(toRemove, StopFallback));
    }

    /** Take the dialer out and cancel the fallback of its call; a failed assertion leaves the handler. */
    method RemoveFallbackOf(key: BridgeId, ghost todo: seq<BridgeId>) returns (ok: bool)
      requires Valid() && Enabled(View(), StopsFallback) && threads.stasis == Removing(todo, StopFallback)
          && key == todo[0]
      modifies this
      ensures Valid() && View() == FallbackStopped(old(View()))
      ensures ok <==> !RemovalFails(old(View()), key)
    {
      ghost var before := View();
      StopFallbackKeepsRegular(before);
      FallbackStoppedIs(before);
      ok := DropAndCancel(key, todo);
    }

    /** The dialer is taken out, then the fallback of its call is cancelled, if there is a call. */
    method DropAndCancel(key: BridgeId, ghost todo: seq<BridgeId>) returns (ok: bool)
      requires key in originByBridge ==> Stasis !in CallOf(View(), originByBridge[key]).blocks
      modifies this`contactDialers, this`dialersByAor
      modifies this`pstnFallbacks, this`incomingCalls, this`threads, this`history
      ensures var dropped := old(View()).(bridges := DropDialer(old(View()).bridges, key));
              View() == CancelledApart(dropped, Get(originByBridge, key), todo)
      ensures ok <==> !RemovalFails(old(View()), key)
    {
      TakeOut(key);
      ok := CancelFallbackOf(key, todo);
    }

    method CancelFallbackOf(key: BridgeId, ghost todo: seq<BridgeId>) returns (ok: bool)
      requires key in originByBridge ==> Stasis !in CallOf(View(), originByBridge[key]).blocks
      modifies this`pstnFallbacks, this`incomingCalls, this`threads, this`history
      ensures View() == CancelledApart(old(View()), Get(originByBridge, key), todo)
      ensures ok <==> !(key in originByBridge && AssertionFails(CallOf(old(View()), originByBridge[key])))
    {
      ok := true;
      if key in originByBridge {
        ok := CancelFallbackLocked(originByBridge[key], Stasis);
      }
      threads := threads.(stasis := if ok then Removing(todo, StopPush) else Idle);
    }

    /** Cancel the push of its call. */
    method RemovePushOf(key: BridgeId, ghost todo: seq<BridgeId>)
      requires Valid() && Enabled(View(), StopsPush) && threads.stasis == Removing(todo, StopPush) && key == todo[0]
      modifies this
      ensures Valid()
      ensures View() == PushStopped(old(View()))
    {
      StopPushKeepsRegular(View());
      CancelPushOf(key, todo[1..]);
    }

    /** One round of the loop that removes the dialers of a lost channel: the dialer, its bridge and its call leave
        every dictionary; or the assertion fails, and only the dialer is taken out. */
    method RemoveOne(key: BridgeId, ghost todo: seq<BridgeId>) returns (ok: bool)
      requires Valid() && Free(View()) && NoLockHeld(View())
      requires threads.stasis == Removing(todo, StopFallback) && todo != [] && key == todo[0] && key in originByBridge
      modifies this
      ensures Valid() && Free(View()) && NoLockHeld(View()) && history.dialed == old(history.dialed)
      ensures ok <==> !RemovalFails(old(View()), key)
      ensures !ok ==> View() == SetStasis(old(View()).(bridges := DropDialer(old(View()).bridges, key)), Idle)
      ensures ok ==>
                && threads.stasis == Onwards(todo[1..])
                && View().bridges == WithoutBridge(DropDialer(old(View()).bridges, key), key, old(originByBridge)[key])
                && View().calls == ForgetCall(old(View()).calls, old(originByBridge)[key])
    {
      ghost var before, callId := View(), originByBridge[key];
      FallbackStoppedFacts(before, todo, callId);
      ok := RemoveFallbackOf(key, todo);
      if !ok {
        return;
      }
      ghost var stopped := View();
      PushStoppedFacts(stopped, todo, callId);
      RemovePushOf(key, todo);
      ghost var silent := View();
      PruneCallState(key, todo[1..]);
      PoppingHoldsNoLock(silent, View(), callId, threads.stasis);
    }

    /** Mark, and list the dialers to remove. */
    method FindDialersOf(channel: ChannelId, dialed: map<BridgeId, set<ChannelId>>) returns (toRemove: seq<BridgeId>)
      requires Valid() && Free(View()) && threads.stasis.Idle? && dialed == history.dialed && NoLockHeld(View())
      modifies this
      ensures Valid() && Free(View()) && NoLockHeld(View()) && history.dialed == dialed
      ensures threads.stasis == if toRemove == [] then Idle else Removing(toRemove, StopFallback)
      ensures Enumerates(toRemove, Knowing(old(View()), channel))
      ensures View().bridges == old(View()).bridges && View().calls == MarkCalls(old(View()).calls, channel)
    {
      ghost var before := View();
      HearingKeepsRegular(before, channel);
      Record(ReportedGone(channel));
      threads := threads.(stasis := Marking(channel, pstnFallbacks.Keys));
      SettingKeepsLocks(before, threads.stasis);
      MarkLegGone(channel);
      ghost var marked := View();
      toRemove := CollectAll(channel, dialed);
      SameKnow(before, marked, channel);
      CollectingKeepsLocks(marked, channel, toRemove);
    }

    /** The loop that removes them, up to the first one whose call has a fallback without a lock. */
    method RemoveAll(toRemove: seq<BridgeId>) returns (ok: bool, ghost removed: nat)
      requires Valid() && Free(View()) && NoLockHeld(View()) && threads.stasis == Onwards(toRemove)
      requires Different(toRemove) && Elements(toRemove) <= originByBridge.Keys
      modifies this
      ensures Valid() && Free(View()) && threads.stasis.Idle? && NoLockHeld(View())
          && history.dialed == old(history.dialed)
      ensures removed <= |toRemove| && (ok <==> removed == |toRemove|)
      ensures ok <==> forall b :: b in toRemove ==> !Lockless(old(View()), b)
      ensures !ok ==> Lockless(old(View()), toRemove[removed])
      ensures contactDialers == old(contactDialers) - Elements(toRemove[..removed])
          - (if ok then {} else {toRemove[removed]})
      ensures originByBridge == old(originByBridge) - Elements(toRemove[..removed])
      ensures View().calls == ForgetCalls(old(View()).calls,
          CallsOf(old(View()).bridges, Elements(toRemove[..removed])))
    {
      ghost var before := View();
      var i := 0;
      while i < |toRemove|
        invariant 0 <= i <= |toRemove|
        invariant Valid() && Free(View()) && NoLockHeld(View()) && history.dialed == before.history.dialed
        invariant threads.stasis == Onwards(toRemove[i..])
        invariant RemovedSoFar(before, View(), toRemove, i)
      {
        assert toRemove[i] in Elements(toRemove) && toRemove[i] !in Elements(toRemove[..i]);
        LocklessStays(before, View(), toRemove, i);
        var done := RemoveOne(toRemove[i], toRemove[i..]);
        if !done {
          return false, i;
        }
        OneMoreForgotten(before, toRemove, i);
        assert toRemove[i..][1..] == toRemove[i + 1..];
        i := i + 1;
      }
      assert toRemove[..i] == toRemove;
      return true, i;
    }

    /** The whole handler of a lost channel, when nothing runs between its parts.  If no dialer that knows the
        channel has a call with a fallback and no lock, exactly the dialers that know it are removed, with their
        bridges and calls.  Otherwise the assertion leaves the handler: the dialers before the first such one, in
        the order of the loop, are removed; that one is only taken out of the dialers, and the others stay. */
    method NotifyChannelGone(channel: ChannelId, dialed: map<BridgeId, set<ChannelId>>)
      returns (ok: bool, ghost order: seq<BridgeId>, ghost removed: nat)
      requires Valid() && Free(View()) && threads.stasis.Idle? && dialed == history.dialed && NoLockHeld(View())
      modifies this
      ensures Valid() && Free(View()) && threads.stasis.Idle? && NoLockHeld(View())
      ensures Enumerates(order, Knowing(old(View()), channel))
          && Knowing(old(View()), channel) <= old(originByBridge).Keys
      ensures removed <= |order| && (ok <==> removed == |order|)
      ensures ok <==> forall b :: b in Knowing(old(View()), channel) ==> !Lockless(old(View()), b)
      ensures !ok ==> Lockless(old(View()), order[removed])
      ensures contactDialers == old(contactDialers) - Elements(order[..removed]) - (if ok then {} else {order[removed]})
      ensures originByBridge == old(originByBridge) - Elements(order[..removed])
      ensures View().calls == ForgetCalls(MarkCalls(old(View()).calls, channel),
          CallsOf(old(View()).bridges, Elements(order[..removed])))
      ensures ok ==> Elements(order[..removed]) == Knowing(old(View()), channel) && Knowing(View(), channel) == {}
    {
      ghost var before := View();
      var toRemove := FindDialersOf(channel, dialed);
      ghost var marked := View();
      SameKnow(before, marked, channel);
      KnownAreDialers(before, channel, toRemove);
      MarkingKeepsLockless(before, marked, channel);
      order := toRemove;
      ok, removed := RemoveAll(toRemove);
      if ok {
        assert order[..removed] == order;
        AllForgotten(marked, View(), channel, toRemove);
      }
    }
  }

  // ---- Whole blocks of the stasis thread ----

  /** A move of the stasis thread on a call, with the block it enters brought to its end. */
  function WholeMove(s: State, call: Option<CallId>, move: Move): State
    requires CanStasisMove(s, call, move)
  {
    if call.None? then s
    else Finish(Done(s, call.value, Make(call.value, CallOf(s, call.value), move)), call.value, Stasis)
  }

  lemma DialKeepsRegular(s: State, caller: ChannelId, origin: CallId, aor: Aor, b: BridgeId)
    requires Regular(s) && Free(s) && s.threads.stasis.Idle? && b !in s.history.dialed
    ensures Regular(Dial(s, caller, origin, aor, b))
  {
    StepKeepsRegular(s, Dials(caller, origin, aor, b));
  }

  lemma TakeKeepsRegular(s: State)
    requires Regular(s) && Free(s) && s.threads.stasis.Joining?
    ensures var pc := s.threads.stasis; Regular(JoinTake(s, pc.channel, pc.bridge, pc.call))
  {
    StepKeepsRegular(s, TakesDialer);
  }

  lemma ConnectKeepsRegular(s: State, outcome: JoinOutcome)
    requires Regular(s) && Free(s) && s.threads.stasis.Stopping? && s.threads.stasis.bridge in s.bridges.callerLeg
    ensures var pc := s.threads.stasis; Regular(JoinConnect(s, pc.channel, pc.bridge, pc.call, outcome))
  {
    StepKeepsRegular(s, Connects(outcome));
  }

  /** The state with the stasis thread and the bridges as given. */
  function Elsewhere(s: State, m: BridgeMaps, pc: StasisPc, block: Option<CallId>): State
  {
    s.(bridges := m, threads := s.threads.(stasis := pc, stasisBlock := block))
  }

  lemma FinishElsewhere(s: State, c: CallId, w: Worker, m: BridgeMaps, pc: StasisPc, block: Option<CallId>)
    ensures CallOf(Elsewhere(s, m, pc, block), c) == CallOf(s, c)
    ensures Finish(Elsewhere(s, m, pc, block), c, w) == Elsewhere(Finish(s, c, w), m, pc, block)
  {
  }

  lemma StasisLeavesRegular(s: State, c: CallId)
    requires Regular(s) && s.threads.stasisBlock == Some(c)
    ensures Regular(Elsewhere(Finish(s, c, Stasis), s.bridges, s.threads.stasis, None))
  {
    assert Stasis in CallOf(s, c).blocks;
    StepKeepsRegular(s, StasisLeaves);
  }

  lemma EnteringIs(s: State, c: CallId, did: Did, move: Move, m: BridgeMaps, pc: StasisPc)
    requires Free(s) && CanMove(CallOf(s, c), move) && did == Make(c, CallOf(s, c), move)
    ensures SetStasis(StasisMove(s, Some(c), move).(bridges := m), pc)
            == Elsewhere(Done(s, c, did), m, pc, if Stasis in CallOf(Done(s, c, did), c).blocks then Some(c) else None)
  {
    DoneIs(s, c, did);
  }

  /** If a move of the stasis thread leads to a regular state, so does the move with the end of its block. */
  lemma WholeKeepsRegular(s: State, call: Option<CallId>, move: Move, m: BridgeMaps, pc: StasisPc)
    requires Free(s) && CanStasisMove(s, call, move) && Regular(SetStasis(StasisMove(s, call, move).(bridges := m), pc))
    ensures Regular(SetStasis(WholeMove(s, call, move).(bridges := m), pc))
  {
    if call.Some? {
      var c := call.value;
      var did := Make(c, CallOf(s, c), move);
      WholeDidKeepsRegular(s, c, did, move, m, pc);
    }
  }

  lemma WholeDidKeepsRegular(s: State, c: CallId, did: Did, move: Move, m: BridgeMaps, pc: StasisPc)
    requires Free(s) && CanMove(CallOf(s, c), move) && did == Make(c, CallOf(s, c), move)
    requires Regular(SetStasis(StasisMove(s, Some(c), move).(bridges := m), pc))
    ensures Regular(Elsewhere(Finish(Done(s, c, did), c, Stasis), m, pc, None))
  {
    var entered := Done(s, c, did);
    var block := if Stasis in CallOf(entered, c).blocks then Some(c) else None;
    EnteringIs(s, c, did, move, m, pc);
    FinishElsewhere(entered, c, Stasis, m, pc, block);
    if block.Some? {
      StasisLeavesRegular(Elsewhere(entered, m, pc, block), c);
    }
  }

  // ---- What the whole blocks of the stasis handlers lead to ----

  function Headed(s: State, channel: ChannelId, b: BridgeId): State
    requires Enabled(s, StartsJoin(channel, b))
  {
    var call := Get(s.bridges.origin, b);
    SetStasis(WholeMove(s, call, Joins(channel)), Joining(channel, b, call))
  }

  function PushRefused(s: State): State
    requires Enabled(s, RefusesPush)
  {
    var pc := s.threads.stasis;
    SetStasis(WholeMove(s, pc.call, CancelsPush(Stasis)), Pruning(pc.bridge, []))
  }

  function FallbackStopped(s: State): State
    requires Enabled(s, StopsFallback)
  {
    var todo := s.threads.stasis.todo;
    if RemovalFails(s, todo[0]) then SetStasis(s.(bridges := DropDialer(s.bridges, todo[0])), Idle)
    else
      var moved := WholeMove(s, Get(s.bridges.origin, todo[0]), CancelsFallback(Stasis));
      SetStasis(moved.(bridges := DropDialer(s.bridges, todo[0])), Removing(todo, StopPush))
  }

  function PushStopped(s: State): State
    requires Enabled(s, StopsPush)
  {
    var todo := s.threads.stasis.todo;
    SetStasis(WholeMove(s, Get(s.bridges.origin, todo[0]), CancelsPush(Stasis)), Pruning(todo[0], todo[1..]))
  }

  lemma HeadKeepsRegular(s: State, channel: ChannelId, b: BridgeId)
    requires Regular(s) && Enabled(s, StartsJoin(channel, b))
    ensures Regular(Headed(s, channel, b))
  {
    var call := Get(s.bridges.origin, b);
    StepKeepsRegular(s, StartsJoin(channel, b));
    StasisMoveKeepsBridges(s, call, Joins(channel));
    WholeKeepsRegular(s, call, Joins(channel), s.bridges, Joining(channel, b, call));
    WholeKeepsBridges(s, call, Joins(channel));
  }

  lemma RefuseKeepsRegular(s: State)
    requires Regular(s) && Enabled(s, RefusesPush)
    ensures Regular(PushRefused(s))
    ensures var pc := s.threads.stasis;
            pc.call == Get(s.bridges.origin, pc.bridge) && CanStasisMove(s, pc.call, CancelsPush(Stasis))
  {
    var pc := s.threads.stasis;
    StepKeepsRegular(s, RefusesPush);
    StasisMoveKeepsBridges(s, pc.call, CancelsPush(Stasis));
    WholeKeepsRegular(s, pc.call, CancelsPush(Stasis), s.bridges, Pruning(pc.bridge, []));
    WholeKeepsBridges(s, pc.call, CancelsPush(Stasis));
  }

  lemma WholeKeepsBridges(s: State, call: Option<CallId>, move: Move)
    requires CanStasisMove(s, call, move)
    ensures WholeMove(s, call, move).bridges == s.bridges && WholeMove(s, call, move).history.dialed == s.history.dialed
    ensures WholeMove(s, call, move).threads.stasisBlock == s.threads.stasisBlock
  {
  }

  // ---- What the whole handlers need ----

  function ForgetCall(calls: CallMaps, c: CallId): CallMaps
  {
    CallMaps(calls.incoming - {c}, calls.fallbacks - {c}, calls.locks - {c}, calls.ringTime - {c})
  }

  function ForgetCalls(calls: CallMaps, cs: set<CallId>): CallMaps
  {
    CallMaps(calls.incoming - cs, calls.fallbacks - cs, calls.locks - cs, calls.ringTime - cs)
  }

  /** The fallbacks that ring the channel are marked as gone. */
  function MarkCalls(calls: CallMaps, channel: ChannelId): CallMaps
  {
    calls.(fallbacks := MarkSome(calls.fallbacks, calls.fallbacks.Keys, channel))
  }

  /** The same for some of the calls. */
  function MarkSome(fallbacks: map<CallId, PstnFallback>, some: set<CallId>, channel: ChannelId)
    : map<CallId, PstnFallback>
  {
    map c | c in fallbacks ::
      if c in some && fallbacks[c] == Dialing(channel) then FallbackCancelled else fallbacks[c]
  }

  lemma MarkSomeMore(fallbacks: map<CallId, PstnFallback>, todo: set<CallId>, channel: ChannelId, c: CallId)
    requires c in todo && todo <= fallbacks.Keys
    ensures var marked := MarkSome(fallbacks, fallbacks.Keys - todo, channel);
            MarkSome(fallbacks, fallbacks.Keys - (todo - {c}), channel)
            == if Get(marked, c) == Some(Dialing(channel)) then marked[c := FallbackCancelled] else marked
  {
  }

  function Elements<T>(s: seq<T>): set<T> { set x | x in s }

  /** The calls of some bridges. */
  function CallsOf(m: BridgeMaps, bridges: set<BridgeId>): set<CallId>
  {
    set b | b in bridges && b in m.origin :: m.origin[b]
  }

  ghost predicate NoLockHeld(s: State) { forall c :: LockIsFree(CallOf(s, c)) }

  lemma PopKeepsRegular(s: State)
    requires Regular(s) && Free(s) && InPrune(s.threads.stasis)
    ensures Regular(PopNext(s))
    ensures s.threads.stasis.Pruning? ==> s.threads.stasis.bridge in s.bridges.origin
  {
    StepKeepsRegular(s, Prunes);
  }

  lemma SameBlocksHold(s: State, s': State)
    requires NoLockHeld(s) && forall c :: CallOf(s', c).blocks == CallOf(s, c).blocks
    ensures NoLockHeld(s')
  {
    forall c ensures LockIsFree(CallOf(s', c)) {
      assert LockIsFree(CallOf(s, c)) && CallOf(s', c).blocks == CallOf(s, c).blocks;
    }
  }

  function ForgetEntry(calls: CallMaps, c: CallId, entry: Entry): CallMaps
  {
    match entry
    case OfRingTime => calls.(ringTime := calls.ringTime - {c})
    case OfFallback => calls.(fallbacks := calls.fallbacks - {c})
    case OfLock => calls.(locks := calls.locks - {c})
    case OfIncoming => calls.(incoming := calls.incoming - {c})
  }

  /** The threads after an entry of the call is popped: only the stasis thread has moved on. */
  function ThreadsAfterPop(s: State, c: CallId, entry: Entry): Threads
    requires AboutToPop(s, c, entry)
  {
    ThreadsPopping(s, c, AfterPop(s.threads.stasis.bridge, c, entry, s.threads.stasis.next))
  }

  /** The threads when the stasis thread is as given, and has touched the call without being in a block. */
  function ThreadsPopping(s: State, c: CallId, pc: StasisPc): Threads
  {
    s.threads.(ofCall := s.threads.ofCall[c := ThreadsOf(s, c)], stasis := pc)
  }

  lemma PoppingOn(s: State, s': State, c: CallId, pc: StasisPc, pc': StasisPc)
    requires s'.threads == ThreadsPopping(s, c, pc)
    ensures ThreadsPopping(s', c, pc') == ThreadsPopping(s, c, pc')
  {
  }

  lemma PoppingHoldsNoLock(s: State, s': State, c: CallId, pc: StasisPc)
    requires NoLockHeld(s) && s'.threads == ThreadsPopping(s, c, pc)
    ensures NoLockHeld(s')
  {
    SameBlocksHold(s, s');
  }

  lemma PopEntryIs(s: State, c: CallId, entry: Entry)
    requires AboutToPop(s, c, entry)
    ensures PopNext(s) == State(ForgetEntry(s.calls, c, entry), s.bridges, ThreadsAfterPop(s, c, entry), s.history)
  {
    PutSame(s, c);
  }

  lemma MarkKeepsRegular(s: State, c: CallId)
    requires Regular(s) && Free(s) && s.threads.stasis.Marking? && c in s.threads.stasis.calls && NoLockHeld(s)
    ensures LockIsFree(CallOf(s, c)) && CanMove(CallOf(s, c), Marks(s.threads.stasis.channel))
    ensures var s' := GoneMark(s, s.threads.stasis.channel, s.threads.stasis.calls, c); Regular(s') && NoLockHeld(s')
  {
    var pc := s.threads.stasis;
    assert LockIsFree(CallOf(s, c));
    StepKeepsRegular(s, MarksGone(c));
    var s' := GoneMark(s, pc.channel, pc.calls, c);
    forall d ensures LockIsFree(CallOf(s', d)) {
      assert LockIsFree(CallOf(s, d));
      DoneChanges(s, c, Make(c, CallOf(s, c), Marks(pc.channel)), d);
      assert CallOf(s', d).blocks == CallOf(s, d).blocks;
    }
  }

  lemma StasisIsOut(s: State, c: CallId)
    requires Regular(s) && Free(s)
    ensures Stasis !in CallOf(s, c).blocks
  {
    assert StasisIsWhere(s);
  }

  lemma JoinCanEnter(s: State, channel: ChannelId, b: BridgeId)
    requires Regular(s) && Free(s) && s.threads.stasis.Idle?
        && (b in s.bridges.origin ==> LockIsFree(CallOf(s, s.bridges.origin[b])))
    ensures Enabled(s, StartsJoin(channel, b))
  {
    if b in s.bridges.origin {
      StasisIsOut(s, s.bridges.origin[b]);
    }
  }

  lemma RefuseCanEnter(s: State, c: CallId)
    requires Regular(s) && Free(s) && s.threads.stasis.Refusing? && s.threads.stasis.call == Some(c)
        && LockIsFree(CallOf(s, c))
    ensures Enabled(s, RefusesPush)
  {
    StasisIsOut(s, c);
  }

  lemma PutForgets(s: State, c: CallId, v: Call)
    ensures ForgetCall(PutCall(s, c, v).calls, c) == ForgetCall(s.calls, c)
  {
  }

  predicate SameBeside(s: State, s': State, c: CallId)
  {
    && ForgetCall(s'.calls, c) == ForgetCall(s.calls, c)
    && s'.threads == s.threads.(ofCall := s'.threads.ofCall) && s'.threads.ofCall - {c} == s.threads.ofCall - {c}
  }

  lemma DoneKeepsOthers(s: State, c: CallId, did: Did)
    ensures SameBeside(s, Done(s, c, did), c)
  {
    PutForgets(if did.effect.Some? then Emit(s, did.effect.value) else s, c, did.call);
  }

  lemma FinishKeepsOthers(s: State, c: CallId, w: Worker)
    ensures SameBeside(s, Finish(s, c, w), c) && CallOf(Finish(s, c, w), c).blocks == CallOf(s, c).blocks - {w}
  {
    var v := CallOf(s, c);
    if w in v.blocks {
      DoneKeepsOthers(s, c, Leave(c, v, w));
      DoneIs(s, c, Leave(c, v, w));
    }
  }

  lemma WholeBlocks(v: Call, c: CallId, move: Move)
    requires CanMove(v, move) && Stasis !in v.blocks
    requires move.Joins? || move == CancelsPush(Stasis) || move == CancelsFallback(Stasis)
    ensures Make(c, v, move).call.blocks - {Stasis} == v.blocks
  {
  }

  /** A whole block of the stasis thread changes the dictionary entries of its call only, and is over. */
  lemma WholeKeepsOthers(s: State, c: CallId, move: Move)
    requires CanStasisMove(s, Some(c), move) && Stasis !in CallOf(s, c).blocks
    requires move.Joins? || move == CancelsPush(Stasis) || move == CancelsFallback(Stasis)
    ensures var s' := WholeMove(s, Some(c), move);
            SameBeside(s, s', c) && CallOf(s', c).blocks == CallOf(s, c).blocks
  {
    WholeBlocks(CallOf(s, c), c, move);
    WholeDidKeepsOthers(s, c, Make(c, CallOf(s, c), move));
  }

  lemma WholeDidKeepsOthers(s: State, c: CallId, did: Did)
    requires did.call.blocks - {Stasis} == CallOf(s, c).blocks
    ensures var s' := Finish(Done(s, c, did), c, Stasis);
            SameBeside(s, s', c) && CallOf(s', c).blocks == CallOf(s, c).blocks
  {
    DoneKeepsOthers(s, c, did);
    DoneIs(s, c, did);
    FinishKeepsOthers(Done(s, c, did), c, Stasis);
  }

  /** Cancelling a fallback has nothing to do with the bridges. */
  lemma CancelApart(s: State, c: CallId, m: BridgeMaps)
    ensures CancelFallback(s.(bridges := m), c, Stasis) == CancelFallback(s, c, Stasis).(bridges := m)
  {
    var did := EnterCancelFallback(c, CallOf(s, c), Stasis, c in s.calls.locks);
    FinishElsewhere(Done(s, c, did), c, Stasis, m, s.threads.stasis, s.threads.stasisBlock);
  }

  /** The cancellation of the fallback of a call, if there is one, by a stasis thread that has dropped its dialer. */
  function CancelledApart(dropped: State, call: Option<CallId>, todo: seq<BridgeId>): State
  {
    if call.None? then SetStasis(dropped, Removing(todo, StopPush))
    else if AssertionFails(CallOf(dropped, call.value)) then SetStasis(dropped, Idle)
    else SetStasis(CancelFallback(dropped, call.value, Stasis), Removing(todo, StopPush))
  }

  lemma FallbackStoppedIs(s: State)
    requires Regular(s) && Enabled(s, StopsFallback)
    ensures var todo := s.threads.stasis.todo;
            var call, dropped := Get(s.bridges.origin, todo[0]), s.(bridges := DropDialer(s.bridges, todo[0]));
            && FallbackStopped(s) == CancelledApart(dropped, call, todo)
            && (call.Some? ==>
                  Stasis !in CallOf(dropped, call.value).blocks && CallOf(dropped, call.value) == CallOf(s, call.value))
  {
    var todo := s.threads.stasis.todo;
    var call := Get(s.bridges.origin, todo[0]);
    if call.Some? {
      CancelApart(s, call.value, DropDialer(s.bridges, todo[0]));
      StasisIsOut(s, call.value);
    }
  }

  lemma StopFallbackKeepsRegular(s: State)
    requires Regular(s) && Enabled(s, StopsFallback)
    ensures Regular(FallbackStopped(s))
  {
    var todo := s.threads.stasis.todo;
    StepKeepsRegular(s, StopsFallback);
    if !RemovalFails(s, todo[0]) {
      WholeKeepsRegular(s, Get(s.bridges.origin, todo[0]), CancelsFallback(Stasis), DropDialer(s.bridges, todo[0]),
          Removing(todo, StopPush));
    }
  }

  lemma StopPushKeepsRegular(s: State)
    requires Regular(s) && Enabled(s, StopsPush)
    ensures Regular(PushStopped(s))
    ensures var todo := s.threads.stasis.todo; CanStasisMove(s, Get(s.bridges.origin, todo[0]), CancelsPush(Stasis))
  {
    var todo := s.threads.stasis.todo;
    var call := Get(s.bridges.origin, todo[0]);
    StepKeepsRegular(s, StopsPush);
    StasisMoveKeepsBridges(s, call, CancelsPush(Stasis));
    WholeKeepsRegular(s, call, CancelsPush(Stasis), s.bridges, Pruning(todo[0], todo[1..]));
    WholeKeepsBridges(s, call, CancelsPush(Stasis));
  }

  /** The stasis thread is free, and is removing the dialer of some bridge of the call. */
  ghost predicate Removes(s: State, todo: seq<BridgeId>, stage: RemovalStage, c: CallId)
  {
    && Free(s) && NoLockHeld(s)
    && s.threads.stasis == Removing(todo, stage) && todo != [] && Get(s.bridges.origin, todo[0]) == Some(c)
  }

  /** Only the call may differ, and it has the blocks it had. */
  ghost predicate OnlyCall(s: State, s': State, c: CallId)
  {
    && ForgetCall(s'.calls, c) == ForgetCall(s.calls, c)
    && s'.history.dialed == s.history.dialed
    && s'.threads.ofCall - {c} == s.threads.ofCall - {c} && CallOf(s', c).blocks == CallOf(s, c).blocks
  }

  lemma WholeTakesNoLock(s: State, c: CallId, move: Move, m: BridgeMaps, pc: StasisPc)
    requires Free(s) && NoLockHeld(s) && CanStasisMove(s, Some(c), move) && Stasis !in CallOf(s, c).blocks
    requires move == CancelsPush(Stasis) || move == CancelsFallback(Stasis)
    ensures var s' := SetStasis(WholeMove(s, Some(c), move).(bridges := m), pc);
            Free(s') && NoLockHeld(s') && OnlyCall(s, s', c)
  {
    WholeKeepsOthers(s, c, move);
    WholeKeepsBridges(s, Some(c), move);
    NoLockIsTaken(s, SetStasis(WholeMove(s, Some(c), move).(bridges := m), pc), c);
  }

  lemma FallbackStoppedFacts(s: State, todo: seq<BridgeId>, c: CallId)
    requires Regular(s) && Removes(s, todo, StopFallback, c)
    ensures Enabled(s, StopsFallback)
    ensures var s' := FallbackStopped(s);
            && NoLockHeld(s')
            && (RemovalFails(s, todo[0]) ==> s' == SetStasis(s.(bridges := DropDialer(s.bridges, todo[0])), Idle))
            && (!RemovalFails(s, todo[0]) ==>
                  Removes(s', todo, StopPush, c) && OnlyCall(s, s', c) && s'.bridges == DropDialer(s.bridges, todo[0]))
  {
    assert LockIsFree(CallOf(s, c));
    StasisIsOut(s, c);
    if RemovalFails(s, todo[0]) {
      SameBlocksHold(s, FallbackStopped(s));
    } else {
      WholeTakesNoLock(s, c, CancelsFallback(Stasis), DropDialer(s.bridges, todo[0]), Removing(todo, StopPush));
    }
  }

  lemma PushStoppedFacts(s: State, todo: seq<BridgeId>, c: CallId)
    requires Regular(s) && Removes(s, todo, StopPush, c)
    ensures Enabled(s, StopsPush)
    ensures var s' := PushStopped(s);
            Free(s') && NoLockHeld(s') && OnlyCall(s, s', c) && s'.bridges == s.bridges
  {
    assert LockIsFree(CallOf(s, c));
    StasisIsOut(s, c);
    WholeKeepsBridges(s, Some(c), CancelsPush(Stasis));
    WholeTakesNoLock(s, c, CancelsPush(Stasis), s.bridges, Pruning(todo[0], todo[1..]));
  }

  lemma SettingKeepsLocks(s: State, pc: StasisPc)
    requires NoLockHeld(s)
    ensures NoLockHeld(SetStasis(s, pc))
  {
    forall d ensures LockIsFree(CallOf(SetStasis(s, pc), d)) {
      assert LockIsFree(CallOf(s, d));
    }
  }

  lemma HearingKeepsRegular(s: State, channel: ChannelId)
    requires Regular(s) && Enabled(s, HearsGone(channel))
    ensures Regular(GoneStart(s, channel))
  {
    StepKeepsRegular(s, HearsGone(channel));
  }

  lemma CollectingKeepsRegular(s: State, order: seq<BridgeId>)
    requires Regular(s) && Enabled(s, CollectsGone(order))
    ensures Regular(GoneCollect(s, s.threads.stasis.channel, order))
  {
    StepKeepsRegular(s, CollectsGone(order));
  }

  lemma NoLockIsTaken(s: State, s': State, c: CallId)
    requires NoLockHeld(s) && s'.threads.ofCall - {c} == s.threads.ofCall - {c}
        && CallOf(s', c).blocks == CallOf(s, c).blocks
    ensures NoLockHeld(s')
  {
    forall d ensures LockIsFree(CallOf(s', d)) {
      assert LockIsFree(CallOf(s, d));
      assert d != c && d in s'.threads.ofCall ==> d in s'.threads.ofCall - {c};
      assert d != c && d in s.threads.ofCall ==> d in s.threads.ofCall - {c};
      assert CallOf(s', d).blocks == CallOf(s, d).blocks;
    }
  }

  /** The call of the bridge has a fallback and no lock. */
  predicate Lockless(s: State, b: BridgeId)
  {
    b in s.bridges.origin && s.bridges.origin[b] in s.calls.fallbacks && s.bridges.origin[b] !in s.calls.locks
  }

  lemma MarkingKeepsLockless(s: State, s': State, channel: ChannelId)
    requires s'.bridges == s.bridges && s'.calls == MarkCalls(s.calls, channel)
    ensures forall b :: Lockless(s', b) <==> Lockless(s, b)
  {
  }

  /** What the removal of the first i dialers of the list leaves; none of them was without its lock. */
  ghost predicate RemovedSoFar(s: State, s': State, order: seq<BridgeId>, i: nat)
    requires i <= |order|
  {
    && s'.bridges.dialers == s.bridges.dialers - Elements(order[..i])
    && s'.bridges.origin == s.bridges.origin - Elements(order[..i])
    && s'.calls == ForgetCalls(s.calls, CallsOf(s.bridges, Elements(order[..i])))
    && forall b :: b in order[..i] ==> !Lockless(s, b)
  }

  /** The next removal fails exactly if the call was without a lock from the start. */
  lemma LocklessStays(s: State, s': State, order: seq<BridgeId>, i: nat)
    requires i < |order| && RemovedSoFar(s, s', order, i) && order[i] in s'.bridges.origin
    ensures RemovalFails(s', order[i]) <==> Lockless(s, order[i])
  {
    var c, gone := s.bridges.origin[order[i]], CallsOf(s.bridges, Elements(order[..i]));
    assert Lockless(s, order[i]) ==> c !in gone;
  }

  lemma SameKnow(s: State, s': State, channel: ChannelId)
    requires s'.bridges == s.bridges && s'.history.dialed == s.history.dialed
    ensures Knowing(s', channel) == Knowing(s, channel)
  {
  }

  lemma KnownAreDialers(s: State, channel: ChannelId, order: seq<BridgeId>)
    requires Coherent(s) && Enumerates(order, Knowing(s, channel))
    ensures Elements(order) == Knowing(s, channel) && Knowing(s, channel) <= s.bridges.origin.Keys
  {
  }

  lemma CollectingKeepsLocks(s: State, channel: ChannelId, order: seq<BridgeId>)
    requires NoLockHeld(s) && Enumerates(order, Knowing(s, channel))
    ensures NoLockHeld(GoneCollect(s, channel, order))
  {
    forall d ensures LockIsFree(CallOf(GoneCollect(s, channel, order), d)) {
      assert LockIsFree(CallOf(s, d));
    }
  }

  lemma NobodyKnows(s: State, s': State, channel: ChannelId)
    requires s'.bridges.dialers == s.bridges.dialers - Knowing(s, channel) && s'.history.dialed == s.history.dialed
    ensures Knowing(s', channel) == {}
  {
  }

  lemma DropTwice<K, V>(m: map<K, V>, dropped: set<K>, k: K)
    ensures (m - dropped) - {k} == m - (dropped + {k})
  {
  }

  lemma ForgetTwice(calls: CallMaps, cs: set<CallId>, c: CallId)
    ensures ForgetCall(ForgetCalls(calls, cs), c) == ForgetCalls(calls, cs + {c})
  {
    DropTwice(calls.incoming, cs, c);
    DropTwice(calls.fallbacks, cs, c);
    DropTwice(calls.ringTime, cs, c);
  }

  lemma OneMoreElement<T>(order: seq<T>, i: nat)
    requires i < |order|
    ensures Elements(order[..i + 1]) == Elements(order[..i]) + {order[i]}
  {
    assert order[..i + 1] == order[..i] + [order[i]];
  }

  lemma OneMoreCall(m: BridgeMaps, bridges: set<BridgeId>, b: BridgeId)
    requires b in m.origin
    ensures CallsOf(m, bridges + {b}) == CallsOf(m, bridges) + {m.origin[b]}
  {
  }

  /** What the removal of one more dialer of the list leaves. */
  lemma OneMoreForgotten(s: State, order: seq<BridgeId>, i: nat)
    requires i < |order| && order[i] in s.bridges.origin
    ensures var gone, more := Elements(order[..i]), Elements(order[..i + 1]);
            && (s.bridges.dialers - gone) - {order[i]} == s.bridges.dialers - more
            && (s.bridges.origin - gone) - {order[i]} == s.bridges.origin - more
            && ForgetCall(ForgetCalls(s.calls, CallsOf(s.bridges, gone)), s.bridges.origin[order[i]])
                == ForgetCalls(s.calls, CallsOf(s.bridges, more))
  {
    OneMoreElement(order, i);
    OneMoreCall(s.bridges, Elements(order[..i]), order[i]);
    DropTwice(s.bridges.dialers, Elements(order[..i]), order[i]);
    DropTwice(s.bridges.origin, Elements(order[..i]), order[i]);
    ForgetTwice(s.calls, CallsOf(s.bridges, Elements(order[..i])), s.bridges.origin[order[i]]);
  }

  lemma AllForgotten(s: State, s': State, channel: ChannelId, order: seq<BridgeId>)
    requires Enumerates(order, Knowing(s, channel)) && s'.history.dialed == s.history.dialed
    requires s'.bridges.dialers == s.bridges.dialers - Elements(order)
    ensures Elements(order) == Knowing(s, channel) && Knowing(s', channel) == {}
  {
    assert Elements(order) == Knowing(s, channel);
    NobodyKnows(s, s', channel);
  }

  // ---- What a join does to channels ----

  /** Of hang-ups and bridges, exactly these are new. */
  ghost predicate GrowsBy(t: Trace, t': Trace, hungUp: set<ChannelId>, created: set<(ChannelId, ChannelId)>,
                          b: BridgeId)
  {
    && (forall x :: t'.Has(HungUp(x)) <==> t.Has(HungUp(x)) || x in hungUp)
    && (forall d, x, y ::
          t'.Has(BridgeCreated(d, x, y)) <==> t.Has(BridgeCreated(d, x, y)) || (d == b && (x, y) in created))
  }

  lemma GrowsOn(t: Trace, t1: Trace, t2: Trace, leg: set<ChannelId>, hungUp: set<ChannelId>,
                created: set<(ChannelId, ChannelId)>, b: BridgeId)
    requires GrowsBy(t, t1, leg, {}, b) && GrowsBy(t1, t2, hungUp, created, b)
    ensures GrowsBy(t, t2, leg + hungUp, created, b)
  {
  }

  lemma ConnectingGrows(t: Trace, t': Trace, channel: ChannelId, b: BridgeId, caller: ChannelId, outcome: JoinOutcome)
    requires t' == if outcome.CallerLeft? then Then(t, HungUp(channel))
                   else if Creates(outcome) then Then(t, BridgeCreated(b, channel, caller)) else t
    ensures GrowsBy(t, t', if outcome.CallerLeft? then {channel} else {},
                    if Creates(outcome) then {(channel, caller)} else {}, b)
  {
  }

  predicate Creates(outcome: JoinOutcome) { outcome == Bridged || outcome == AriFailed(true) }

  /** The leg that rings for the call of the bridge, unless it is the channel itself. */
  function OtherLeg(s: State, channel: ChannelId, b: BridgeId): set<ChannelId>
  {
    if b !in s.bridges.origin || s.bridges.origin[b] !in s.calls.locks then {}
    else
      var fallback := Get(s.calls.fallbacks, s.bridges.origin[b]);
      if fallback.Some? && fallback.value.Dialing? then {fallback.value.leg} - {channel} else {}
  }

  /** A whole block of the stasis thread has the effect of its move. */
  lemma WholeMoveDoes(s: State, c: CallId, move: Move, e: Effect)
    requires CanMove(CallOf(s, c), move) && (move.Joins? || move == CancelsPush(Stasis))
    ensures WholeMove(s, Some(c), move).history.trace.Has(e)
        <==> s.history.trace.Has(e) || CallReason(c, CallOf(s, c), move, e)
  {
    MovesHaveReasons(c, CallOf(s, c), move, e);
  }

  lemma CancellingOnlyCancels(s: State, c: CallId, b: BridgeId)
    requires CanMove(CallOf(s, c), CancelsPush(Stasis))
    ensures GrowsBy(s.history.trace, WholeMove(s, Some(c), CancelsPush(Stasis)).history.trace, {}, {}, b)
  {
    var t' := WholeMove(s, Some(c), CancelsPush(Stasis)).history.trace;
    forall x ensures t'.Has(HungUp(x)) <==> s.history.trace.Has(HungUp(x)) {
      WholeMoveDoes(s, c, CancelsPush(Stasis), HungUp(x));
    }
    forall d, x, y ensures t'.Has(BridgeCreated(d, x, y)) <==> s.history.trace.Has(BridgeCreated(d, x, y)) {
      WholeMoveDoes(s, c, CancelsPush(Stasis), BridgeCreated(d, x, y));
    }
  }

  lemma HeadHangsUp(s: State, channel: ChannelId, b: BridgeId)
    requires Enabled(s, StartsJoin(channel, b))
    ensures GrowsBy(s.history.trace, Headed(s, channel, b).history.trace, OtherLeg(s, channel, b), {}, b)
  {
    var call, t' := Get(s.bridges.origin, b), Headed(s, channel, b).history.trace;
    if call.Some? {
      forall x ensures t'.Has(HungUp(x)) <==> s.history.trace.Has(HungUp(x)) || x in OtherLeg(s, channel, b) {
        WholeMoveDoes(s, call.value, Joins(channel), HungUp(x));
      }
      forall d, x, y ensures t'.Has(BridgeCreated(d, x, y)) <==> s.history.trace.Has(BridgeCreated(d, x, y)) {
        WholeMoveDoes(s, call.value, Joins(channel), BridgeCreated(d, x, y));
      }
    }
  }

  lemma HeadFacts(s: State, channel: ChannelId, b: BridgeId)
    requires Regular(s) && Free(s) && Enabled(s, StartsJoin(channel, b))
    ensures var call := Get(s.bridges.origin, b);
            var s' := WholeMove(s, call, Joins(channel));
            && s'.bridges == s.bridges && s'.threads.stasisBlock == None
            && (b in s.bridges.dialers ==> call.Some?) && (call.None? ==> s' == s)
            && (call.Some? ==> ForgetCall(s'.calls, call.value) == ForgetCall(s.calls, call.value)
                               && CallOf(s', call.value).blocks == CallOf(s, call.value).blocks)
  {
    var call := Get(s.bridges.origin, b);
    WholeKeepsBridges(s, call, Joins(channel));
    if call.Some? {
      StasisIsOut(s, call.value);
      WholeKeepsOthers(s, call.value, Joins(channel));
    }
  }
}
