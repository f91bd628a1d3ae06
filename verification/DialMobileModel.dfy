/** Mobile push with PSTN fallback: the shared state of `DialMobileService`, the threads that are in
    flight, and what each of them does from one step to the next.

    A block under the lock of a call is two steps: it enters, reads and talks to the bus or to ARI; later it
    writes and leaves.  Blocks of one call exclude each other as long as the call has a lock.  Pruning takes no
    lock and is one step for each dictionary: other threads can run between any two of its pops, also between
    the two steps of a block, and a thread that found the lock before its pop can still get it afterwards.  The
    stasis handlers (`dial_all_contacts`, `join_bridge`, `notify_channel_gone`) run one after another; all the
    other steps interleave with them. */
module DialMobileModel {
  import opened Wrappers
  import opened Identifiers

  /** What a push notification carries; the payload is opaque. */
  datatype PushInfo = PushInfo(callId: string, tenant: string, user: string, payload: string)

  datatype IncomingCall =
    | Pending(info: PushInfo)
    | Notified(info: PushInfo)
    | Received(info: PushInfo)
    | PushCancelled(info: PushInfo)
  {
    predicate Terminal() { Received? || PushCancelled? }
  }

  datatype PstnFallback =
    | FallbackPending
    | Triggering
    | Dialing(leg: ChannelId)
    | DialAnswered(leg: ChannelId)
    | FallbackCancelled
  {
    /** No PSTN leg is ringing and none can be originated from this state. */
    predicate Quiet() { DialAnswered? || FallbackCancelled? }
  }

  /** What the service does to the outside world, and the channel losses it is told about. */
  datatype Effect =
    | PushSent(call: CallId, info: PushInfo)
    | PushCancelSent(call: CallId, info: PushInfo)
    | TimerStarted(call: CallId)
    | LegOriginated(call: CallId, leg: ChannelId, bridge: BridgeId)
    | LegAnswered(call: CallId, leg: ChannelId)
    | HungUp(channel: ChannelId)
    | ReportedGone(channel: ChannelId)
    | BridgeCreated(bridge: BridgeId, first: ChannelId, second: ChannelId)

  /** Effects in the order they happened, the latest on top. */
  datatype Trace = Empty | Then(past: Trace, last: Effect)
  {
    predicate Has(e: Effect) { Then? && (last == e || past.Has(e)) }
  }

  /** A `_ContactDialer`, seen from the service; its identity is its future bridge. */
  datatype Dialer = Dialer(caller: ChannelId, aor: Aor)

  /** Where the timer thread of a call is inside `_pstn_fallback`; `LegUp` is between the originate and the
      cancellation of the push that follows it. */
  datatype TimerPc =
    | Armed
    | HoldsLock
    | ReadPush
    | FindBridge(info: PushInfo)
    | Commit(info: PushInfo, bridge: BridgeId, caller: ChannelId)
    | LegUp
    | Aborting
    | Finished

  /** Who can be inside a block about a call: the sender of its push, its timer thread, the stasis thread, or
      any thread of the bus or of a dialer. */
  datatype Worker = Sender | Timer | Stasis | Bus(thread: nat)

  /** What a worker that has entered a block, and read, is going to write; `locked` says that it holds the lock. */
  datatype Block = Block(locked: bool, incoming: Option<IncomingCall>, fallback: Option<PstnFallback>)

  /** What is known about one call: its entries in `_incoming_calls`, `_pstn_fallbacks`, `_call_locks` and
      `_call_ring_time`, and the threads that are busy with it. */
  datatype Call = Call(
    incoming: Option<IncomingCall>,
    fallback: Option<PstnFallback>,
    locked: bool,
    ringTime: Option<int>,
    requested: bool,
    send: Option<PushInfo>,
    timer: Option<TimerPc>,
    blocks: map<Worker, Block>)

  /** What the service keeps about a call, entry by entry. */
  datatype Entry = OfRingTime | OfFallback | OfLock | OfIncoming

  /** What a prune pops next, once it knows the call: its bridge, then its entries one after the other. */
  datatype Pop = PopBridge | PopEntry(entry: Entry)

  datatype RemovalStage = StopFallback | StopPush

  /** Where the stasis thread is.  A prune starts by looking the call up (`Pruning`), goes through its entries
      (`Popping`) and ends with the caller (`Closing`); `next` are the dialers to remove afterwards. */
  datatype StasisPc =
    | Idle
    | Joining(channel: ChannelId, bridge: BridgeId, call: Option<CallId>)
    | Stopping(channel: ChannelId, bridge: BridgeId, call: Option<CallId>)
    | Refusing(bridge: BridgeId, call: Option<CallId>)
    | Pruning(bridge: BridgeId, next: seq<BridgeId>)
    | Popping(bridge: BridgeId, pruned: CallId, pop: Pop, next: seq<BridgeId>)
    | Closing(bridge: BridgeId, next: seq<BridgeId>)
    | Marking(channel: ChannelId, calls: set<CallId>)
    | Removing(todo: seq<BridgeId>, stage: RemovalStage)

  /** What the service keeps per call. */
  datatype CallMaps = CallMaps(
    incoming: map<CallId, IncomingCall>,
    fallbacks: map<CallId, PstnFallback>,
    locks: set<CallId>,
    ringTime: map<CallId, int>)

  /** What it keeps per future bridge: `_contact_dialers`, `_dialers_by_aor`,
      `_caller_channel_leg_by_bridge` and the two maps between bridges and origin calls. */
  datatype BridgeMaps = BridgeMaps(
    dialers: map<BridgeId, Dialer>,
    byAor: map<Aor, set<BridgeId>>,
    callerLeg: map<BridgeId, ChannelId>,
    origin: map<BridgeId, CallId>,
    byOrigin: map<CallId, BridgeId>)

  /** The threads that are busy with one call. */
  datatype CallThreads = CallThreads(
    requested: bool,
    send: Option<PushInfo>,
    timer: Option<TimerPc>,
    blocks: map<Worker, Block>)

  /** `stasisBlock` is the call whose block the stasis thread is in. */
  datatype Threads = Threads(ofCall: map<CallId, CallThreads>, stasis: StasisPc, stasisBlock: Option<CallId>)

  /** What happened so far: the channels each dialer originated, and the effects. */
  datatype History = History(dialed: map<BridgeId, set<ChannelId>>, trace: Trace)

  datatype State = State(calls: CallMaps, bridges: BridgeMaps, threads: Threads, history: History)

  const Initial: State :=
    State(CallMaps(map[], map[], {}, map[]),
          BridgeMaps(map[], map[], map[], map[], map[]),
          Threads(map[], Idle, None),
          History(map[], Empty))

  // ---- One call inside the state ----

  function ThreadsOf(s: State, c: CallId): CallThreads
  {
    if c in s.threads.ofCall then s.threads.ofCall[c] else CallThreads(false, None, None, map[])
  }

  function CallOf(s: State, c: CallId): Call
  {
    var t := ThreadsOf(s, c);
    Call(Get(s.calls.incoming, c), Get(s.calls.fallbacks, c), c in s.calls.locks, Get(s.calls.ringTime, c),
         t.requested, t.send, t.timer, t.blocks)
  }

  /** A dictionary with the entry of one key set or dropped. */
  function With<K, V>(m: map<K, V>, k: K, v: Option<V>): map<K, V>
  {
    if v.Some? then m[k := v.value] else m - {k}
  }

  function PutCall(s: State, c: CallId, v: Call): State
  {
    s.(calls := CallMaps(With(s.calls.incoming, c, v.incoming),
                         With(s.calls.fallbacks, c, v.fallback),
                         if v.locked then s.calls.locks + {c} else s.calls.locks - {c},
                         With(s.calls.ringTime, c, v.ringTime)),
       threads := s.threads.(ofCall := s.threads.ofCall[c := CallThreads(v.requested, v.send, v.timer, v.blocks)]))
  }

  function Emit(s: State, e: Effect): State
  {
    s.(history := s.history.(trace := Then(s.history.trace, e)))
  }

  function SetStasis(s: State, pc: StasisPc): State
  {
    s.(threads := s.threads.(stasis := pc))
  }

  /** What a step does to a call, and the effect it has. */
  datatype Did = Did(call: Call, effect: Option<Effect>)

  function Done(s: State, c: CallId, did: Did): State
  {
    PutCall(if did.effect.Some? then Emit(s, did.effect.value) else s, c, did.call)
  }

  // ---- Entering and leaving a block ----

  predicate LockIsFree(v: Call)
  {
    forall w :: w in v.blocks ==> !v.blocks[w].locked
  }

  /** A block that looks the lock up enters when the lock is free, and without a lock when there is none.  A thread
      that found a lock may also get it later than that: see `EnterLate`. */
  predicate CanEnter(v: Call)
  {
    v.locked ==> LockIsFree(v)
  }

  /** A block that has nothing to write leaves at once. */
  function Enter(v: Call, w: Worker, block: Block): Call
  {
    v.(blocks := v.blocks[w := block])
  }

  predicate CanLeave(v: Call, w: Worker)
  {
    w in v.blocks && !(w.Timer? && v.timer == Some(LegUp))
  }

  /** Write and leave; the sender that arms the fallback also starts the timer. */
  function Leave(c: CallId, v: Call, w: Worker): Did
    requires w in v.blocks
  {
    var b := v.blocks[w];
    var written := v.(incoming := if b.incoming.Some? then b.incoming else v.incoming,
                      fallback := if b.fallback.Some? then b.fallback else v.fallback,
                      blocks := v.blocks - {w});
    if w.Sender? && b.fallback.Some? then Did(written.(timer := Some(Armed)), Some(TimerStarted(c)))
    else Did(written, None)
  }

  // ---- What the blocks read, and are going to write; `lock` says that the worker holds the lock ----

  function EnterCancelFallback(c: CallId, v: Call, w: Worker, lock: bool): Did
  {
    var cancelling := Enter(v, w, Block(true, None, Some(FallbackCancelled)));
    if !lock then Did(v, None)
    else match v.fallback
      case None => Did(v, None)
      case Some(DialAnswered(_)) => Did(v, None)
      case Some(FallbackCancelled) => Did(v, None)
      case Some(FallbackPending) => Did(cancelling, None)
      case Some(Triggering) => Did(cancelling, None)
      case Some(Dialing(leg)) => Did(cancelling, Some(HungUp(leg)))
  }

  function EnterCancelPush(c: CallId, v: Call, w: Worker, lock: bool): Did
  {
    match v.incoming
    case Some(Notified(info)) =>
      Did(Enter(v, w, Block(lock, Some(PushCancelled(info)), None)), Some(PushCancelSent(c, info)))
    case Some(Pending(info)) => Did(Enter(v, w, Block(lock, Some(PushCancelled(info)), None)), None)
    case Some(Received(_)) => Did(v, None)
    case Some(PushCancelled(_)) => Did(v, None)
    case None => Did(v, None)
  }

  function EnterCompletePush(v: Call, w: Worker, lock: bool): Did
  {
    if v.incoming.Some? && !v.incoming.value.Terminal()
    then Did(Enter(v, w, Block(lock, Some(Received(v.incoming.value.info)), None)), None)
    else Did(v, None)
  }

  /** What a thread of the bus or of a dialer enters a block for. */
  datatype Purpose = ToCancelPush | ToCompletePush | ToCancelFallback

  /** A thread that found the lock before it was popped, and got it afterwards, enters with it. */
  function EnterLate(c: CallId, v: Call, w: Worker, purpose: Purpose): Did
  {
    match purpose
    case ToCancelPush => EnterCancelPush(c, v, w, true)
    case ToCompletePush => EnterCompletePush(v, w, true)
    case ToCancelFallback => EnterCancelFallback(c, v, w, true)
  }

  // ---- send_push_notification ----

  function SendFirst(v: Call, info: PushInfo, ringTime: int): Call
  {
    v.(incoming := Some(Pending(info)), locked := true, ringTime := Some(ringTime), requested := true,
        send := Some(info))
  }

  /** The second half keeps the lock object of the first; `eligible` is the answer of the confd lookup. */
  function EnterSend(c: CallId, v: Call, eligible: bool): Did
    requires v.send.Some?
  {
    var info, back := v.send.value, v.(send := None);
    if v.incoming.Some? && v.incoming.value.Pending? then
      Did(Enter(back, Sender, Block(true, Some(Notified(info)), if eligible then Some(FallbackPending) else None)),
          Some(PushSent(c, info)))
    else Did(back, None)
  }

  // ---- _pstn_fallback ----

  function SetTimer(v: Call, pc: TimerPc): Call { v.(timer := Some(pc)) }

  function TimerFires(v: Call): Call
  {
    SetTimer(v, if v.locked then HoldsLock else Finished)
  }

  function EnterPhase1(v: Call): Call
  {
    if v.fallback == Some(FallbackPending) then Enter(SetTimer(v, ReadPush), Timer, Block(true, None, Some(Triggering)))
    else SetTimer(v, Finished)
  }

  /** The push is read once; `usable` says that confd knows a user with fallback enabled, a number and a line. */
  function Phase2Read(v: Call, usable: bool): Call
  {
    SetTimer(v, if v.incoming.Some? && !v.incoming.value.Terminal() && usable then FindBridge(v.incoming.value.info)
        else Aborting)
  }

  /** `found` is the bridge of the call and its caller, when both are known and the caller is there. */
  function Phase2Bridge(v: Call, found: Option<(BridgeId, ChannelId)>): Call
    requires v.timer.Some? && v.timer.value.FindBridge?
  {
    SetTimer(v, if found.Some? then Commit(v.timer.value.info, found.value.0, found.value.1) else Aborting)
  }

  /** `leg` is the originated channel, or None when ARI refuses to originate. */
  function EnterPhase3(c: CallId, v: Call, leg: Option<ChannelId>): Did
    requires v.timer.Some? && v.timer.value.Commit?
  {
    if v.fallback != Some(Triggering) then Did(SetTimer(v, Finished), None)
    else if leg.None? then Did(SetTimer(v, Aborting), None)
    else
      Did(Enter(SetTimer(v, LegUp), Timer, Block(true, None, Some(Dialing(leg.value)))),
          Some(LegOriginated(c, leg.value, v.timer.value.bridge)))
  }

  /** The cancellation of the push inside Phase 3: the thread holds the lock already, if there is one. */
  function Phase3CancelPush(c: CallId, v: Call): Did
    requires Timer in v.blocks
  {
    var block, on := v.blocks[Timer], SetTimer(v, Finished);
    match v.incoming
    case Some(Notified(info)) =>
      Did(Enter(on, Timer, block.(incoming := Some(PushCancelled(info)))), Some(PushCancelSent(c, info)))
    case Some(Pending(info)) => Did(Enter(on, Timer, block.(incoming := Some(PushCancelled(info)))), None)
    case Some(Received(_)) => Did(on, None)
    case Some(PushCancelled(_)) => Did(on, None)
    case None => Did(on, None)
  }

  function EnterAbort(v: Call): Call
  {
    var over := SetTimer(v, Finished);
    if v.fallback == Some(Triggering) then Enter(over, Timer, Block(true, None, Some(FallbackCancelled))) else over
  }

  // ---- What the stasis thread does to a call ----

  /** The locked block at the head of `join_bridge`. */
  function EnterJoin(c: CallId, v: Call, channel: ChannelId): Did
  {
    if v.locked && v.fallback == Some(Dialing(channel)) then
      Did(Enter(v, Stasis, Block(true, None, Some(DialAnswered(channel)))), Some(LegAnswered(c, channel)))
    else EnterCancelFallback(c, v, Stasis, v.locked)
  }

  /** One round of the first loop of `notify_channel_gone`: a ringing PSTN leg that is gone is marked Cancelled. */
  function MarkGone(v: Call, channel: ChannelId): Call
  {
    if v.fallback == Some(Dialing(channel)) then v.(fallback := Some(FallbackCancelled)) else v
  }

  /** What one pop of a prune leaves of a call. */
  function Forget(v: Call, entry: Entry): Call
  {
    match entry
    case OfRingTime => v.(ringTime := None)
    case OfFallback => v.(fallback := None)
    case OfLock => v.(locked := false)
    case OfIncoming => v.(incoming := None)
  }

  // ---- Moves: everything that can happen to one call ----

  datatype Move =
    | SendsFirst(info: PushInfo, ringTime: int)
    | Sends(eligible: bool)
    | CancelsPush(worker: Worker)
    | CompletesPush(worker: Worker)
    | CancelsFallback(worker: Worker)
    | EntersLate(worker: Worker, purpose: Purpose)
    | Leaves(worker: Worker)
    | Fires
    | Triggers
    | ReadsPush(usable: bool)
    | FindsBridge(found: Option<(BridgeId, ChannelId)>)
    | Originates(leg: Option<ChannelId>)
    | CancelsPushOfLeg
    | Aborts
    | Joins(channel: ChannelId)
    | Marks(channel: ChannelId)
    | Pops(entry: Entry)

  predicate CanMove(v: Call, move: Move)
  {
    match move
    case SendsFirst(_, _) => !v.requested
    case Sends(_) => v.send.Some? && LockIsFree(v)
    case CancelsPush(w) => (w.Bus? || w.Stasis?) && w !in v.blocks && CanEnter(v)
    case CompletesPush(w) => w.Bus? && w !in v.blocks && CanEnter(v)
    case CancelsFallback(w) => (w.Bus? || w.Stasis?) && w !in v.blocks && CanEnter(v)
    case EntersLate(w, _) => w.Bus? && w !in v.blocks && v.requested && !v.locked && LockIsFree(v)
    case Leaves(w) => CanLeave(v, w)
    case Fires => v.timer == Some(Armed)
    case Triggers => v.timer == Some(HoldsLock) && LockIsFree(v)
    case ReadsPush(_) => v.timer == Some(ReadPush) && Timer !in v.blocks
    case FindsBridge(_) => v.timer.Some? && v.timer.value.FindBridge?
    case Originates(_) => v.timer.Some? && v.timer.value.Commit? && LockIsFree(v)
    case CancelsPushOfLeg => v.timer == Some(LegUp) && Timer in v.blocks
    case Aborts => v.timer == Some(Aborting) && LockIsFree(v)
    case Joins(_) => Stasis !in v.blocks && CanEnter(v)
    case Marks(_) => CanEnter(v)
    case Pops(_) => true
  }

  function Make(c: CallId, v: Call, move: Move): Did
    requires CanMove(v, move)
  {
    match move
    case SendsFirst(info, ringTime) => Did(SendFirst(v, info, ringTime), None)
    case Sends(eligible) => EnterSend(c, v, eligible)
    case CancelsPush(w) => EnterCancelPush(c, v, w, v.locked)
    case CompletesPush(w) => EnterCompletePush(v, w, v.locked)
    case CancelsFallback(w) => EnterCancelFallback(c, v, w, v.locked)
    case EntersLate(w, purpose) => EnterLate(c, v, w, purpose)
    case Leaves(w) => Leave(c, v, w)
    case Fires => Did(TimerFires(v), None)
    case Triggers => Did(EnterPhase1(v), None)
    case ReadsPush(usable) => Did(Phase2Read(v, usable), None)
    case FindsBridge(found) => Did(Phase2Bridge(v, found), None)
    case Originates(leg) => EnterPhase3(c, v, leg)
    case CancelsPushOfLeg => Phase3CancelPush(c, v)
    case Aborts => Did(EnterAbort(v), None)
    case Joins(channel) => EnterJoin(c, v, channel)
    case Marks(channel) => Did(MarkGone(v, channel), None)
    case Pops(entry) => Did(Forget(v, entry), None)
  }

  // ---- Bridges ----

  function Without(byAor: map<Aor, set<BridgeId>>, b: BridgeId): map<Aor, set<BridgeId>>
  {
    map a | a in byAor && byAor[a] - {b} != {} :: byAor[a] - {b}
  }

  function DropDialer(m: BridgeMaps, b: BridgeId): BridgeMaps
  {
    m.(dialers := m.dialers - {b}, byAor := Without(m.byAor, b))
  }

  function DialersOf(m: BridgeMaps, aor: Aor): set<BridgeId>
  {
    if aor in m.byAor then m.byAor[aor] else {}
  }

  function AddDialer(m: BridgeMaps, caller: ChannelId, origin: CallId, aor: Aor, b: BridgeId): BridgeMaps
  {
    BridgeMaps(m.dialers[b := Dialer(caller, aor)],
               m.byAor[aor := DialersOf(m, aor) + {b}],
               m.callerLeg[b := caller],
               m.origin[b := origin],
               m.byOrigin[origin := b])
  }

  /** The bridge of a call and its caller, as Phase 2 looks them up. */
  function BridgeOf(m: BridgeMaps, c: CallId): Option<(BridgeId, ChannelId)>
  {
    if c in m.byOrigin && m.byOrigin[c] in m.callerLeg then Some((m.byOrigin[c], m.callerLeg[m.byOrigin[c]])) else None
  }

  /** The dialers that know a channel: it is their caller or one they originated. */
  function Knowing(s: State, channel: ChannelId): set<BridgeId>
  {
    set b | b in s.bridges.dialers &&
            (s.bridges.dialers[b].caller == channel || (b in s.history.dialed && channel in s.history.dialed[b]))
  }

  predicate Enumerates<T>(order: seq<T>, elements: set<T>)
  {
    && (forall i, j :: 0 <= i < j < |order| ==> order[i] != order[j])
    && (forall x :: x in order ==> x in elements)
    && (forall x :: x in elements ==> x in order)
  }

  /** Hang up the caller of every dialer whose dialed channel refused. */
  function RefuseCallers(trace: Trace, dialers: map<BridgeId, Dialer>, channel: ChannelId, order: seq<BridgeId>): Trace
    requires forall b :: b in order ==> b in dialers
  {
    if order == [] then trace
    else
      var caller := dialers[order[|order| - 1]].caller;
      var before := RefuseCallers(trace, dialers, channel, order[..|order| - 1]);
      if caller == channel then before else Then(before, HungUp(caller))
  }

  // ---- Stasis handlers ----

  /** A move of the stasis thread on a call, if there is a call; the thread is then in a block if the move
      entered one. */
  function StasisMove(s: State, call: Option<CallId>, move: Move): State
    requires call.Some? ==> CanMove(CallOf(s, call.value), move)
  {
    if call.None? then s
    else
      var did := Make(call.value, CallOf(s, call.value), move);
      var s' := Done(s, call.value, did);
      if Stasis in did.call.blocks then s'.(threads := s'.threads.(stasisBlock := call)) else s'
  }

  predicate CanStasisMove(s: State, call: Option<CallId>, move: Move)
  {
    call.Some? ==> CanMove(CallOf(s, call.value), move)
  }

  function Dial(s: State, caller: ChannelId, origin: CallId, aor: Aor, b: BridgeId): State
  {
    s.(bridges := AddDialer(s.bridges, caller, origin, aor, b),
       history := s.history.(dialed := s.history.dialed[b := {}]))
  }

  function JoinHead(s: State, channel: ChannelId, b: BridgeId): State
    requires CanStasisMove(s, Get(s.bridges.origin, b), Joins(channel))
  {
    var call := Get(s.bridges.origin, b);
    SetStasis(StasisMove(s, call, Joins(channel)), Joining(channel, b, call))
  }

  /** The dialer is taken out of the maps and told to stop; without a dialer the channel is late. */
  function JoinTake(s: State, channel: ChannelId, b: BridgeId, call: Option<CallId>): State
  {
    if b in s.bridges.dialers then SetStasis(s.(bridges := DropDialer(s.bridges, b)), Stopping(channel, b, call))
    else SetStasis(Emit(s, HungUp(channel)), Idle)
  }

  /** How the bridging after `dialer.stop()` goes. */
  datatype JoinOutcome =
    | CallerLeft
    | ChannelLeft
    | Bridged
    | AriFailed(bridgeCreated: bool)

  function JoinConnect(s: State, channel: ChannelId, b: BridgeId, call: Option<CallId>, outcome: JoinOutcome): State
    requires b in s.bridges.callerLeg
  {
    var created := SetStasis(Emit(s, BridgeCreated(b, channel, s.bridges.callerLeg[b])), Pruning(b, []));
    match outcome
    case CallerLeft => SetStasis(Emit(s, HungUp(channel)), Refusing(b, call))
    case ChannelLeft => SetStasis(s, Pruning(b, []))
    case Bridged => created
    case AriFailed(bridgeCreated) => if bridgeCreated then created else SetStasis(s, Pruning(b, []))
  }

  function JoinRefuse(s: State, b: BridgeId, call: Option<CallId>): State
    requires CanStasisMove(s, call, CancelsPush(Stasis))
  {
    SetStasis(StasisMove(s, call, CancelsPush(Stasis)), Pruning(b, []))
  }

  /** Where the stasis thread is after popping an entry. */
  function AfterPop(b: BridgeId, c: CallId, entry: Entry, next: seq<BridgeId>): StasisPc
  {
    match entry
    case OfRingTime => Popping(b, c, PopEntry(OfFallback), next)
    case OfFallback => Popping(b, c, PopEntry(OfLock), next)
    case OfLock => Popping(b, c, PopEntry(OfIncoming), next)
    case OfIncoming => Closing(b, next)
  }

  /** Where it is when a dialer is dealt with. */
  function Onwards(next: seq<BridgeId>): StasisPc
  {
    if next == [] then Idle else Removing(next, StopFallback)
  }

  predicate InPrune(pc: StasisPc) { pc.Pruning? || pc.Popping? || pc.Closing? }

  /** The next pop of `_prune_call_state`, which takes no lock. */
  function PopNext(s: State): State
    requires InPrune(s.threads.stasis)
  {
    var m := s.bridges;
    match s.threads.stasis
    case Pruning(b, next) =>
      SetStasis(s.(bridges := m.(origin := m.origin - {b})),
                if b in m.origin then Popping(b, m.origin[b], PopBridge, next) else Closing(b, next))
    case Popping(b, c, PopBridge, next) =>
      SetStasis(s.(bridges := m.(byOrigin := m.byOrigin - {c})), Popping(b, c, PopEntry(OfRingTime), next))
    case Popping(b, c, PopEntry(entry), next) =>
      SetStasis(Done(s, c, Make(c, CallOf(s, c), Pops(entry))), AfterPop(b, c, entry, next))
    case Closing(b, next) => SetStasis(s.(bridges := m.(callerLeg := m.callerLeg - {b})), Onwards(next))
  }

  function GoneStart(s: State, channel: ChannelId): State
  {
    SetStasis(Emit(s, ReportedGone(channel)), Marking(channel, s.calls.fallbacks.Keys))
  }

  function GoneMark(s: State, channel: ChannelId, calls: set<CallId>, c: CallId): State
    requires CanMove(CallOf(s, c), Marks(channel))
  {
    SetStasis(Done(s, c, Make(c, CallOf(s, c), Marks(channel))), Marking(channel, calls - {c}))
  }

  function GoneCollect(s: State, channel: ChannelId, order: seq<BridgeId>): State
    requires forall b :: b in order ==> b in s.bridges.dialers
  {
    SetStasis(s.(history := s.history.(trace := RefuseCallers(s.history.trace, s.bridges.dialers, channel, order))),
              if order == [] then Idle else Removing(order, StopFallback))
  }

  /** What the assertion in `_cancel_pstn_fallback` forbids: a fallback without a lock. */
  predicate AssertionFails(v: Call) { v.fallback.Some? && !v.locked }

  /** The assertion fails in the removal of this dialer. */
  predicate RemovalFails(s: State, b: BridgeId)
  {
    b in s.bridges.origin && AssertionFails(CallOf(s, s.bridges.origin[b]))
  }

  /** The second loop of `notify_channel_gone`, one dialer at a time: take it out and cancel the fallback of its
      call, cancel the push, prune.  A failed assertion leaves the handler, and the loop, when the dialer is out. */
  function RemoveFallback(s: State, todo: seq<BridgeId>): State
    requires todo != [] && CanStasisMove(s, Get(s.bridges.origin, todo[0]), CancelsFallback(Stasis))
  {
    var m := DropDialer(s.bridges, todo[0]);
    if RemovalFails(s, todo[0]) then SetStasis(s.(bridges := m), Idle)
    else SetStasis(StasisMove(s, Get(s.bridges.origin, todo[0]), CancelsFallback(Stasis)).(bridges := m),
        Removing(todo, StopPush))
  }

  function RemovePush(s: State, todo: seq<BridgeId>): State
    requires todo != [] && CanStasisMove(s, Get(s.bridges.origin, todo[0]), CancelsPush(Stasis))
  {
    SetStasis(StasisMove(s, Get(s.bridges.origin, todo[0]), CancelsPush(Stasis)), Pruning(todo[0], todo[1..]))
  }

  // ---- Steps and runs ----

  datatype Step =
    | OnCall(call: CallId, move: Move)
    | StasisLeaves
    | ContactDialed(bridge: BridgeId, channel: ChannelId)
    | Dials(caller: ChannelId, origin: CallId, aor: Aor, bridge: BridgeId)
    | StartsJoin(channel: ChannelId, bridge: BridgeId)
    | TakesDialer
    | Connects(outcome: JoinOutcome)
    | RefusesPush
    | HearsGone(channel: ChannelId)
    | MarksGone(call: CallId)
    | CollectsGone(order: seq<BridgeId>)
    | StopsFallback
    | StopsPush
    | Prunes

  /** The moves of other threads than the stasis thread. */
  predicate Concurrent(s: State, c: CallId, move: Move)
  {
    match move
    case CancelsPush(w) => w.Bus?
    case CompletesPush(w) => w.Bus?
    case CancelsFallback(w) => w.Bus?
    case EntersLate(w, _) => w.Bus?
    case Leaves(w) => !w.Stasis?
    case FindsBridge(found) => found.None? || found == BridgeOf(s.bridges, c)
    case Joins(_) => false
    case Marks(_) => false
    case Pops(_) => false
    case SendsFirst(_, _) => true
    case Sends(_) => true
    case Fires => true
    case Triggers => true
    case ReadsPush(_) => true
    case Originates(_) => true
    case CancelsPushOfLeg => true
    case Aborts => true
  }

  /** When a step can be taken; one fact for the verifier, which would otherwise unfold every case at each use. */
  predicate Enabled(s: State, step: Step)
  {
    if IsEnabled(s, step) then true else false
  }

  /** A push is requested at most once per origin call and future bridge ids are never reused; nothing else is
      assumed of the environment.  The stasis thread goes on only when it has left its block. */
  predicate IsEnabled(s: State, step: Step)
  {
    var pc := s.threads.stasis;
    match step
    case OnCall(c, move) => Concurrent(s, c, move) && CanMove(CallOf(s, c), move)
    case StasisLeaves => s.threads.stasisBlock.Some? && CanMove(CallOf(s, s.threads.stasisBlock.value), Leaves(Stasis))
    case ContactDialed(b, _) => b in s.history.dialed
    case Dials(_, _, _, b) => Free(s) && pc.Idle? && b !in s.history.dialed
    case StartsJoin(channel, b) => Free(s) && pc.Idle? && CanStasisMove(s, Get(s.bridges.origin, b), Joins(channel))
    case TakesDialer => Free(s) && pc.Joining?
    case Connects(_) => Free(s) && pc.Stopping? && pc.bridge in s.bridges.callerLeg
    case RefusesPush => Free(s) && pc.Refusing? && CanStasisMove(s, pc.call, CancelsPush(Stasis))
    case HearsGone(_) => Free(s) && pc.Idle?
    case MarksGone(c) => Free(s) && pc.Marking? && c in pc.calls && CanMove(CallOf(s, c), Marks(pc.channel))
    case CollectsGone(order) =>
      Free(s) && pc.Marking? && pc.calls == {} && Enumerates(order, Knowing(s, pc.channel))
    case StopsFallback =>
      Free(s) && pc.Removing? && pc.stage.StopFallback? && pc.todo != []
      && CanStasisMove(s, Get(s.bridges.origin, pc.todo[0]), CancelsFallback(Stasis))
    case StopsPush =>
      Free(s) && pc.Removing? && pc.stage.StopPush? && pc.todo != []
      && CanStasisMove(s, Get(s.bridges.origin, pc.todo[0]), CancelsPush(Stasis))
    case Prunes => Free(s) && InPrune(pc)
  }

  predicate Free(s: State) { s.threads.stasisBlock.None? }

  function Apply(s: State, step: Step): State
    requires Enabled(s, step)
  {
    var pc := s.threads.stasis;
    match step
    case OnCall(c, move) => Done(s, c, Make(c, CallOf(s, c), move))
    case StasisLeaves =>
      var c := s.threads.stasisBlock.value;
      var s' := Done(s, c, Make(c, CallOf(s, c), Leaves(Stasis)));
      s'.(threads := s'.threads.(stasisBlock := None))
    case ContactDialed(b, channel) =>
      s.(history := s.history.(dialed := s.history.dialed[b := s.history.dialed[b] + {channel}]))
    case Dials(caller, origin, aor, b) => Dial(s, caller, origin, aor, b)
    case StartsJoin(channel, b) => JoinHead(s, channel, b)
    case TakesDialer => JoinTake(s, pc.channel, pc.bridge, pc.call)
    case Connects(outcome) => JoinConnect(s, pc.channel, pc.bridge, pc.call, outcome)
    case RefusesPush => JoinRefuse(s, pc.bridge, pc.call)
    case HearsGone(channel) => GoneStart(s, channel)
    case MarksGone(c) => GoneMark(s, pc.channel, pc.calls, c)
    case CollectsGone(order) => GoneCollect(s, pc.channel, order)
    case StopsFallback => RemoveFallback(s, pc.todo)
    case StopsPush => RemovePush(s, pc.todo)
    case Prunes => PopNext(s)
  }

  /** A run: the states it goes through and the step taken at each of them. */
  datatype Run = Run(states: seq<State>, steps: seq<Step>)
  {
    predicate Valid()
    {
      && |states| == |steps| + 1
      && (forall i :: 0 <= i < |steps| ==> IsStep(i))
    }

    predicate IsStep(i: nat)
      requires |states| == |steps| + 1 && i < |steps|
    {
      Enabled(states[i], steps[i]) && states[i + 1] == Apply(states[i], steps[i])
    }

    predicate FromInitial() { Valid() && states[0] == Initial }
    function Last(): State requires Valid() { states[|steps|] }
  }

  // ---- What the trace says about one call or one bridge ----

  datatype Topic = PushOf(call: CallId) | LegOf(call: CallId) | CreationOf(bridge: BridgeId)

  predicate About(e: Effect, topic: Topic)
  {
    match topic
    case PushOf(c) => (e.PushSent? || e.PushCancelSent?) && e.call == c
    case LegOf(c) => e.LegOriginated? && e.call == c
    case CreationOf(b) => e.BridgeCreated? && e.bridge == b
  }

  /** The effects about a topic, in order. */
  function Log(trace: Trace, topic: Topic): Trace
  {
    match trace
    case Empty => Empty
    case Then(past, e) => if About(e, topic) then Then(Log(past, topic), e) else Log(past, topic)
  }

  /** An originated PSTN leg is accounted for: it asked to join itself, was hung up, or is known to be gone. */
  predicate Settled(trace: Trace, c: CallId, leg: ChannelId)
  {
    trace.Has(LegAnswered(c, leg)) || trace.Has(HungUp(leg)) || trace.Has(ReportedGone(leg))
  }
}
