# Verified model of wazo-calld

A Dafny model of the concurrent and stateful cores of wazo-calld, with proofs about every run, every
interleaving and every input. `dafny verify dfyconfig.toml` checks everything.

## What is modelled

**Mobile push with PSTN fallback** (`wazo_calld/plugins/dial_mobile/services.py`).
`DialMobileModel.dfy` is a state machine over the nine dictionaries of `DialMobileService`. A block under the lock
of a call is two steps: the thread enters, reads and talks to the bus or to ARI, and later writes and leaves. Blocks
about one call exclude each other as long as the call has a lock. `_prune_call_state` takes no lock, and each of its
seven pops is a step of its own: other threads can run between any two of them, and they can come between the two
steps of any block. Once the lock is popped, other threads find none; one that found it before can still get it
then, and goes in with it. The second half of the send and the timer thread keep the lock object they got before.
The lock-free middle phase of the timer thread is two reads, and the stasis handlers are split around
`dialer.stop()`, at each dialer that is removed, and at the assertion that can end that removal. Effects go to a
trace. `DialMobileSteps.dfy` reduces every step to one move per call, `DialMobileCalls.dfy` and `DialMobileRuns.dfy`
prove what holds for one call over all interleavings, `DialMobilePrunes.dfy` exactly what a prune breaks, and that
no thread waits forever for a lock, `DialMobileBridges.dfy` what holds of the bridge dictionaries, also when a
removal fails, `DialMobileLegs.dfy` exactly when a PSTN leg can be lost. `DialMobileReasons.dfy` gives every effect
and every entry of a run its reason, by tables of their own, and `DialMobileCreations.dfy` says which two channels a
bridge is created for, and why every handler ends. `DialMobileService.dfy` is the class itself: its methods update
the dictionaries in place and are proved to do what the state machine says. `ContactDialer.dfy` is the dialer
thread, instruction by instruction, against `kick`, `stop` and Asterisk.

**Call transfers** (`wazo_calld/plugins/transfers/`).
`TransferStates.dfy` has a small ARI world (live channels, the bridge each one is in, hold, ringing, transfer
variables, bridge marks) and every state class as a function from an event to an outcome; a request for a channel
that is gone fails as the code expects. `TransferSafety.dfy` proves what every transition keeps and exactly when it
raises. `TransferParties.dfy` gives the protocol as one table, independent of the state classes, proves that they
follow it, and that nobody is left alone. `TransferMoves.dfy` does the same for the way to ringback: who has moved
into stasis by which status, what `create` reaches, what the parties hear and what clients are told, and whom a
hangup is for. `TransferRecovery.dfy` and `TransferRestart.dfy` are the replay of lost hangups, for one transfer and
for a whole store. `TransferSystem.dfy` and `TransferRuns.dfy` put all transfers, the lock set and `create`
together; `TransferCreates.dfy` lets other handlers run inside `create`, between its lock and its record.
`TransferBridges.dfy` is the bridge cleaner against one transfer, at every point of `complete` and `cancel`, and
`TransferMarks.dfy` against all transfers of a run. `TransferObjects.dfy` and `TransferService.dfy` are the objects
(ARI client, lock, state object, service) whose methods change in place and are proved to do what the functions say.
`TransferRecord.dfy` and `StatePersistor.dfy` are the record, its JSON form, and its storage in one flat string
store with a separate index, with every crash point between two writes; `TransferPersistence.dfy` ties it to the
state machine.

**Relocates** (`wazo_calld/plugins/relocates/`). `Relocates.dfy` is one relocate and its states,
`RelocateCollection.dfy` the collection of the live ones, as values and as objects.

**Confd cache** (`wazo_calld/plugins/endpoints/services.py`). `ConfdCache.dfy` is the nested dictionaries, with
the collect-then-delete loops, place by place.

## What is assumed

- dial_mobile: a push is requested once per origin call id (`SecondRequestPushesAgain` shows why); the stasis
  handlers run one after another; a future bridge id is never used twice; a dialer is identified by its future
  bridge; the writes at the end of one block are one step, for the first half of the send together with the creation
  of its lock; between finding no lock and the read, or the assertion, that follows in the same thread, no push of
  that call is requested. Any number of threads may be inside handlers of the bus, also while another one sends a
  push; a callback of a dialer may cancel the fallback of any call at any time. Where a run exists only because of
  that, the code with a single bus thread has fewer failures than the model, never more.
- Transfers: the parties are in stasis from ringback on, so that the only failing request is the one for a
  channel that is gone; a hangup takes effect at once; handlers run one after another, as the state machine
  lock makes them; a new transfer id was never used before; the transfer variables of a live initiator are
  readable; looking up an absent or empty channel id finds no channel.
- Persistence: `json.loads` inverts `json.dumps` and never yields the empty string; a variable that does not
  exist reads as the empty string, as in `integration_tests/assets/ari_data/mock_ari.py:229-235`. (If it answered
  not found instead, the default of the index would not apply: `wazo_calld/plugin_helpers/ari_.py:130-136`.)

## Where the code does not do what one might expect

Each of these is a lemma in the table below.

- A prune that lands inside a block of another thread makes the call known again without a lock; the assertion
  on lock and fallback lifetimes can then fail (`PruneInsideCancelPush`, `AssertionFailsExactly`).
- That assertion, when it fails in `notify_channel_gone`, ends the handler: the dialer is gone, its bridge stays in
  the other dictionaries for good, and the remaining dialers are not removed (`AssertionEndsHandler`,
  `HandlerBoundary`, `AbandonedForGood`, `NotifyChannelGone`).
- The lock of a call is popped before its incoming call: a push that is out at that moment can be cancelled twice, or
  after it was Received (`PruneBreaksPushesExactly`).
- A leg can be lost: exactly when the second half of a push runs while its call is torn down, or when a fallback that
  was armed behind a prune finds the bridge of a later dial (`LegIsLostExactly`, `LateLegIsLostExactly`).
- A refused originate, or a callback that raises, ends the dialer thread without hanging up what it dialed before
  (`StoppedMeansCleanedUp`, `FailedOriginateLeavesRinging`).
- A transfer with an empty id, the id "INDEX" or an empty bridge id cannot be read back (`GetAfterUpsert`).
- A transition that raises drops the lock of a transfer that stays persisted (`RaisingAllowsASecond`).
- `create` keeps the lock when the initiator has no user or the transferred party leaves in between (`CreateLeaksTheLock`).
- Recovery leaves the transferred party alone in the bridge when initiator and recipient of an answered transfer
  left (`RecoveryRepairs`).
- When two parties of an answered transfer leave together and the initiator's hangup is handled first, the third
  party stays alone (`OrderOfHangupsMatters`, `SecondReportsHelpOnce`).
- Recovery raises on a transfer that is still starting, and then does not look at the ones after it
  (`RecoveryRaisesExactly`, `StartingTransferStopsRecovery`).
- A bridge cleaner with an old snapshot can cut a cancelled transfer, though never a completed one
  (`CancelIsCutExactly`, `CompleteIsNeverCut`).
- A refused originate publishes the end of a relocate twice (`EndExactly`).
- Adding a line or trunk twice keeps its old name; a lookup by id does not load an empty cache, and fails when
  loading brings a new technology (`AddingTwiceKeepsTheOldName`, `GetTrunkById`).

## Model

| member | source | states |
|---|---|---|
| DialMobileRuns.AtMostOneLeg | wazo_calld/plugins/dial_mobile/services.py:873-1062 | Over every interleaving of the timer thread, the bus and stasis handlers and the dialer callbacks, with the pops of a prune between any two steps, at most one PSTN leg is ever originated for a call |
| DialMobileRuns.CancelIsFinal | wazo_calld/plugins/dial_mobile/services.py:755-796 | A step that takes the fallback of a call from Pending or Triggering to Cancelled means that the whole run originates no PSTN leg for that call |
| DialMobileRuns.OverPushMeansNoLeg | wazo_calld/plugins/dial_mobile/services.py:904-955 | If the timer thread reads the push of a call when that push was Received, cancelled or is gone, or when the user cannot be reached, no PSTN leg is originated for that call in the whole run, and a fallback that was Triggering can only become Cancelled or be pruned |
| DialMobileRuns.LocklessTimerStops | wazo_calld/plugins/dial_mobile/services.py:868-879 | A timer that fires when the lock of its call is gone originates no leg, ever |
| DialMobileReasons.ReadingDecides | wazo_calld/plugins/dial_mobile/services.py:904-1032 | With the fallback triggered, the bridge known and the lock free, a leg can be originated after the push was read exactly if it was Pending or Notified then and the user could be reached |
| DialMobileReasons.LivePushOriginates | wazo_calld/plugins/dial_mobile/services.py:904-1032 | From such a push the timer thread can originate a leg, of whatever id, in the bridge of the call |
| DialMobileReasons.LegHasItsReasons | wazo_calld/plugins/dial_mobile/services.py:868-1043 | Every leg of a run was originated from a fallback that was triggered from Pending, whose push was then read Pending or Notified with a user who can be reached, in the bridge that was then found for its call, while it was still Triggering |
| DialMobileReasons.NeverLeftTriggering | wazo_calld/plugins/dial_mobile/services.py:881-1062 | Whatever else happens, a fallback is not left Triggering: when its timer thread is done it is dialed, cancelled or pruned |
| DialMobileRuns.LockExcludes | wazo_calld/plugins/dial_mobile/services.py:740-767 | In every state in which a call has its lock, at most one thread is inside a block about it |
| DialMobileRuns.LockIsHeldOnce | wazo_calld/plugins/dial_mobile/services.py:755-871 | In every state at most one thread holds the lock of a call, also once it was popped: a thread that gets it late, to cancel or complete the push or to cancel the fallback, overlaps neither the sender nor the timer thread nor another late one |
| DialMobileRuns.PushProtocol | wazo_calld/plugins/dial_mobile/services.py:699-720 | As long as no two threads are inside blocks about the call at once, its whole push history is empty, one push, or one push followed by one cancellation that carries the same payload |
| DialMobileRuns.ReceivedIsNeverCancelled | wazo_calld/plugins/dial_mobile/services.py:804-866 | If blocks about the call did not overlap until it is Received, it stays Received while it is known, and no push cancellation is ever sent for it |
| DialMobilePrunes.PruneBreaksPushesExactly | wazo_calld/plugins/dial_mobile/services.py:555-567 | When a prune pops the lock of a call whose blocks never overlapped, a second cancellation for one push becomes possible, and so does a cancellation of a Received push, exactly if the push is out, is being sent, or is still to be sent and nobody is ending it |
| DialMobileRuns.TerminalBeforeSendMeansNoPush | wazo_calld/plugins/dial_mobile/services.py:705-720 | A cancel or complete that lands between the two locked halves of the send means that neither a push is sent nor a leg originated, ever |
| DialMobileRuns.JointKeys | wazo_calld/plugins/dial_mobile/services.py:755-763 | As long as nobody is in a block about a call, and nobody requests its push, between the first and the last pop of its prune: whenever no call is in the middle of a prune, the keys of the fallbacks are keys of the incoming calls, which are exactly the keys of the locks and ring times, so the assertion on lock and fallback lifetimes holds; a Dialing or DialAnswered fallback implies that the push is terminal; and during a prune this holds of all other calls |
| DialMobilePrunes.PruneBreaksKeysExactly | wazo_calld/plugins/dial_mobile/services.py:555-567 | At the end of any prune, the dictionaries about the call can stop agreeing exactly if somebody is in a block about it by then, or something was written behind the pops |
| DialMobilePrunes.AssertionFailsExactly | wazo_calld/plugins/dial_mobile/services.py:758-763 | Once the lock and the incoming call of a call are popped, there can be a fallback without a lock exactly if one is there or somebody is in a block that is going to write one |
| DialMobilePrunes.AssertionRaisesExactly | wazo_calld/plugins/dial_mobile/services.py:426-434 | The assertion on lock and fallback lifetimes is then evaluated by the callback of a dialer, and raises, in some run exactly under the same condition |
| DialMobilePrunes.AssertionEndsHandler | wazo_calld/plugins/dial_mobile/services.py:592-611 | A run from the start in which the assertion leaves notify_channel_gone: the dialer is taken out, and its bridge stays in the other two dictionaries |
| DialMobileRuns.PrunedStaysPruned | wazo_calld/plugins/dial_mobile/services.py:555-567 | After a call is pruned and nobody is in a block about it, nothing in flight recreates an entry for it, sends a push for it or originates a leg for it |
| DialMobilePrunes.ComesBackExactly | wazo_calld/plugins/dial_mobile/services.py:555-567 | A pruned call gets an entry again in some continuation exactly if somebody is in a block about it |
| DialMobilePrunes.PruneInsideCancelPush | wazo_calld/plugins/dial_mobile/bus_consume.py:71-98 | A run in which the bridge of a join makes the bus thread cancel the push, the prune of the join lands between its read and its write, and the call is known again without a lock |
| DialMobilePrunes.BlocksAlwaysGoOn | wazo_calld/plugins/dial_mobile/services.py:740-763 | Whoever is in a block about a call waits for no lock and no thread: it can always go on and is out after two steps of its own |
| DialMobilePrunes.NoLockWhileStopping | wazo_calld/plugins/dial_mobile/services.py:483-487 | While the stasis thread waits in dialer.stop(), in a join or while it looks for the dialers of a lost channel, it holds no lock, so the dialer thread, whose callback takes the lock of the call, is never blocked by it |
| DialMobileRuns.SecondRequestPushesAgain | wazo_calld/plugins/dial_mobile/services.py:699-738 | Why one request per origin call is assumed: in every state a second request that is not interrupted pushes again, even for a Received call |
| DialMobileSteps.StepIsMove | wazo_calld/plugins/dial_mobile/services.py:463-1062 | Every step of the service is, for every call, one move of that call or nothing: what is known about a call changes by its own moves only |
| DialMobileReasons.EffectsHaveReasons | wazo_calld/plugins/dial_mobile/services.py:463-1062 | An effect (a push, its cancellation, a timer, a leg, a hang-up, a bridge) is in the trace of a run exactly if some step so far had a reason for it, by a table that names steps and dictionary entries only |
| DialMobileReasons.BlocksWriteThis | wazo_calld/plugins/dial_mobile/services.py:699-1062 | What a block about a call leaves in the dictionaries when nothing interrupts it, for every block and every state of the call, as one table |
| DialMobileReasons.Phase3WritesThis | wazo_calld/plugins/dial_mobile/services.py:1002-1043 | The last phase of the timer thread as a whole leaves the push cancelled, if it was live, and the fallback dialing the leg |
| DialMobileReasons.BlocksHoldLocks | wazo_calld/plugins/dial_mobile/services.py:740-871 | Whoever enters a block holds the lock exactly if there is one, or it got one before: the sender, the timer thread, or a thread that comes late |
| DialMobileReasons.PushIsRequested | wazo_calld/plugins/dial_mobile/services.py:668-703 | Everything that is known of the push of a call, in every dictionary and block, is what was requested for it: its content and its ring time |
| DialMobileReasons.SentIsRequested | wazo_calld/plugins/dial_mobile/services.py:705-825 | Whatever push is sent or cancelled is the one that was requested |
| DialMobileCalls.MovesKeepBase | wazo_calld/plugins/dial_mobile/services.py:463-1062 | Every move of a call, in every state and with a prune possible at any time, keeps what is known about that call sound |
| DialMobileBridges.HandlerBoundary | wazo_calld/plugins/dial_mobile/services.py:445-449 | Whenever no stasis handler is in progress, callers and origin calls have the same keys and the dialers lack exactly the bridges whose removal failed on the assertion, so the three dictionaries have the same keys exactly if no removal ever failed; the two maps between bridges and origin calls invert each other, and the AOR map has no empty set and holds exactly the live dialers, each under its own AOR |
| DialMobileBridges.AbandonedForGood | wazo_calld/plugins/dial_mobile/services.py:592-611 | A bridge whose removal failed stays among the callers and origin calls for good and never has a dialer again: no later handler, and no join, prunes it |
| DialMobileBridges.RunIsBijective | wazo_calld/plugins/dial_mobile/services.py:448-449 | If no origin call is dialed while a bridge still waits for it, the maps between bridges and origin calls are a full bijection in every state but between the first two pops of a prune |
| DialMobileBridges.BridgeIsCreatedOnce | wazo_calld/plugins/dial_mobile/services.py:538-541 | Over any run each future bridge is created at most once |
| DialMobileCreations.BridgePutsTogether | wazo_calld/plugins/dial_mobile/services.py:509-548 | Every bridge of a run is created for the channel whose join is under way and for the caller that its bridge was dialed for |
| DialMobileCreations.BridgeIsAsDialed | wazo_calld/plugins/dial_mobile/services.py:436-450 | In every state the dictionaries say of a future bridge what its one dial said: its caller, its AOR, and its origin call in both directions; of a bridge that was never dialed they say nothing |
| DialMobileCreations.DialedOnce | wazo_calld/plugins/dial_mobile/services.py:436-450 | And there is one dial of it in the run |
| DialMobileCreations.KnowsWhatItDialed | wazo_calld/plugins/dial_mobile/services.py:581-590 | A dialer knows exactly the channels that it originated so far |
| DialMobileCreations.HandlersEnd | wazo_calld/plugins/dial_mobile/services.py:463-611 | Every step of a stasis handler leaves it less to do, whatever other threads do in between: every handler ends after finitely many steps of its own |
| DialMobileCreations.OthersLeaveHandlers | wazo_calld/plugins/dial_mobile/services.py:463-611 | And no step of another thread, and no leaving of a block, moves it |
| DialMobileBridges.GoneBridgeStaysGone | wazo_calld/plugins/dial_mobile/services.py:555-567 | A bridge that was pruned never comes back into the dictionaries |
| DialMobileBridges.LateJoinOnlyHangsUp | wazo_calld/plugins/dial_mobile/services.py:483-509 | Joining a bridge that was already created, or that no call waits for, only hangs the late channel up: every dictionary, call and thread is as before |
| DialMobileBridges.StepIsCoherent | wazo_calld/plugins/dial_mobile/services.py:405-611 | Every step keeps the bridge dictionaries coherent |
| DialMobileLegs.NoLegIsLost | wazo_calld/plugins/dial_mobile/services.py:463-611 | In every state of a run without a hazardous step, each originated leg asked to join its bridge itself, or was hung up by its own channel id, or was reported gone, or it is the one its fallback is dialing or about to dial and the call has its lock; so it is settled once the lock is popped |
| DialMobileLegs.LegIsLostExactly | wazo_calld/plugins/dial_mobile/services.py:483-611 | The first hazard, exactly: after any run without a hazardous step, a send that arms the fallback can be followed by the loss of the leg of its call exactly if the call is being torn down, by a join or by a channel that is gone, its push is pending and its lock and bridge are there |
| DialMobileLegs.HazardLosesLeg | wazo_calld/plugins/dial_mobile/services.py:483-611 | From every state with the first hazard, and for every leg id, there is a run that loses that leg |
| DialMobileLegs.HazardIsReachable | wazo_calld/plugins/dial_mobile/services.py:483-550 | Such a state is reached from the start: a push is requested while a mobile already joins |
| DialMobileLegs.LateLegIsLostExactly | wazo_calld/plugins/dial_mobile/services.py:958-1043 | The second hazard, exactly: after any run without a hazardous step, the timer thread finding a bridge can be followed by the loss of the leg exactly if the call has no lock by then, its fallback is triggered, and nobody is going to write it |
| DialMobileLegs.LateHazardIsReachable | wazo_calld/plugins/dial_mobile/services.py:555-567 | Such a state is reached from the start: the fallback is armed behind its pop, and the same origin call is dialed again |
| DialMobileService.Service.ReadFallback | wazo_calld/plugins/dial_mobile/services.py:755-796 | What a cancellation of the fallback reads and does before it writes: it fails exactly when there is a fallback without a lock, and hangs up exactly a dialing leg |
| DialMobileService.Service.CancelPstnFallback | wazo_calld/plugins/dial_mobile/services.py:755-796 | The whole block on the real dictionaries, equal to its two steps; the source assertion holds exactly when there is a lock or no fallback, and always when the dictionaries about the call agree; a failed one changes nothing |
| DialMobileService.Service.ReadPush | wazo_calld/plugins/dial_mobile/services.py:804-825 | What a cancellation of the push reads and sends before it writes: a cancellation goes out exactly from Notified |
| DialMobileService.Service.CancelPushMobile | wazo_calld/plugins/dial_mobile/services.py:804-839 | The whole block on the real dictionaries, equal to its two steps |
| DialMobileService.Service.CompletePendingPushMobile | wazo_calld/plugins/dial_mobile/services.py:841-866 | The whole block: Pending and Notified become Received, nothing else changes |
| DialMobileService.Service.SendPushFirstHalf | wazo_calld/plugins/dial_mobile/services.py:692-703 | First locked half of the send, also of a second request: the call becomes Pending with a lock and a ring time; for a first request everything that is proved of runs keeps holding |
| DialMobileService.Service.SendPushSecondHalf | wazo_calld/plugins/dial_mobile/services.py:705-738 | Second locked half: push and arm the timer, or nothing if the call is no longer Pending |
| DialMobileService.Service.TriggerFallback | wazo_calld/plugins/dial_mobile/services.py:884-898 | Phase 1 of the timer thread: only a Pending fallback becomes Triggering, from any other state the thread ends |
| DialMobileService.Service.ReadActionablePush | wazo_calld/plugins/dial_mobile/services.py:904-955 | First half of Phase 2: goes on exactly with a push that is Pending or Notified, of a user who can be reached, and gives up otherwise |
| DialMobileService.Service.FindFallbackBridge | wazo_calld/plugins/dial_mobile/services.py:957-985 | Second half of Phase 2: finds the bridge of the call and its caller exactly if both are known and the caller is up, and gives up otherwise |
| DialMobileService.Service.OriginateLeg | wazo_calld/plugins/dial_mobile/services.py:1002-1032 | Phase 3 up to the originate: a leg is originated exactly from Triggering when ARI accepts |
| DialMobileService.Service.RememberLeg | wazo_calld/plugins/dial_mobile/services.py:1033-1043 | The rest of Phase 3: the push is cancelled, then the leg is remembered |
| DialMobileService.Service.CommitFallback | wazo_calld/plugins/dial_mobile/services.py:1002-1050 | Phase 3 of the timer thread: originates only from Triggering, and then cancels the push |
| DialMobileService.Service.AbortFallback | wazo_calld/plugins/dial_mobile/services.py:1051-1062 | The abort handler cancels only what is still Triggering |
| DialMobileService.Service.DialAllContacts | wazo_calld/plugins/dial_mobile/services.py:436-450 | Registers the dialer in all five dictionaries |
| DialMobileService.Service.UnregisterDialerByAor | wazo_calld/plugins/dial_mobile/services.py:457-461 | The loop over the AOR map: the dialer is in no set any more, sets that become empty are dropped, all others are kept |
| DialMobileService.Service.PopOrigin | wazo_calld/plugins/dial_mobile/services.py:556-560 | The first pop of a prune, which finds the call: one step of the state machine |
| DialMobileService.Service.PopBridgeOf | wazo_calld/plugins/dial_mobile/services.py:562 | The pop of the bridge of the call: one step |
| DialMobileService.Service.PopRingTime | wazo_calld/plugins/dial_mobile/services.py:563 | The pop of the ring time: one step |
| DialMobileService.Service.PopFallback | wazo_calld/plugins/dial_mobile/services.py:564 | The pop of the fallback: one step |
| DialMobileService.Service.PopLock | wazo_calld/plugins/dial_mobile/services.py:565 | The pop of the lock: one step |
| DialMobileService.Service.PopIncoming | wazo_calld/plugins/dial_mobile/services.py:566 | The pop of the incoming call: one step |
| DialMobileService.Service.PopCaller | wazo_calld/plugins/dial_mobile/services.py:567 | The pop of the caller: one step |
| DialMobileService.Service.PruneCallState | wazo_calld/plugins/dial_mobile/services.py:555-567 | All pops in order: the bridge and its call leave every dictionary that knows them, and nothing else does, whatever blocks other threads are in |
| DialMobileService.Service.JoinLocked | wazo_calld/plugins/dial_mobile/services.py:463-481 | The locked part of a join: a dialing leg that joins is answered, any other non-terminal fallback is cancelled |
| DialMobileService.Service.TakeDialer | wazo_calld/plugins/dial_mobile/services.py:483-509 | Takes the dialer out of both maps, or hangs up a late channel |
| DialMobileService.Service.Connect | wazo_calld/plugins/dial_mobile/services.py:511-548 | Answers and bridges as ARI allows: creates the bridge from the channel that joins and the caller of the bridge, and hangs the channel up exactly if the caller left |
| DialMobileService.Service.RefusePush | wazo_calld/plugins/dial_mobile/services.py:511-548 | When the caller left, the push of its call is cancelled |
| DialMobileService.Service.JoinBridge | wazo_calld/plugins/dial_mobile/services.py:463-550 | The whole handler, when nothing runs between its parts: a late channel changes no bridge, and is only hung up when no bridge waits for it; otherwise dialer, bridge and call leave every dictionary and nothing else does. Exactly a late channel, or one whose caller left, is hung up, and a leg of the call that rings elsewhere; the channel is put together exactly with the caller of the bridge, exactly if ARI lets it get that far |
| DialMobileService.Service.MarkLegGone | wazo_calld/plugins/dial_mobile/services.py:569-579 | The loop marks exactly the fallbacks that are dialing the lost channel |
| DialMobileService.Service.CollectDialers | wazo_calld/plugins/dial_mobile/services.py:581-590 | The loop finds exactly the dialers whose caller the lost channel is, or that originated it, each once, and hangs up exactly the callers of the latter |
| DialMobileService.Service.RemoveFallbackOf | wazo_calld/plugins/dial_mobile/services.py:592-609 | Takes the dialer out and cancels the fallback of its call; fails exactly if the call has a fallback and no lock |
| DialMobileService.Service.RemovePushOf | wazo_calld/plugins/dial_mobile/services.py:610 | Cancels the push of its call |
| DialMobileService.Service.RemoveOne | wazo_calld/plugins/dial_mobile/services.py:592-611 | One turn of the removal: the dialer, its bridge and its call leave every dictionary; or the assertion fails, exactly for a fallback without a lock, and only the dialer is taken out |
| DialMobileService.Service.RemoveAll | wazo_calld/plugins/dial_mobile/services.py:592-611 | The loop stops at the first dialer whose call had a fallback and no lock from the start; the ones before it are removed, the ones after it stay |
| DialMobileService.Service.NotifyChannelGone | wazo_calld/plugins/dial_mobile/services.py:569-611 | The whole handler, when nothing runs between its parts: it succeeds exactly if no dialer that knows the lost channel has a call with a fallback and no lock, and then exactly these dialers are removed, with their bridges and calls; otherwise the first such dialer is only taken out and the ones after it stay |
| ContactDialer.NoWakeupIsLost | wazo_calld/plugins/dial_mobile/services.py:254-280 | Whenever the dialer thread is blocked in its wait with no wake-up pending and the caller is up, every announced contact that is still registered has been dialed |
| ContactDialer.EachContactOnce | wazo_calld/plugins/dial_mobile/services.py:298-318 | Over every interleaving each contact is originated at most once |
| ContactDialer.StoppedMeansCleanedUp | wazo_calld/plugins/dial_mobile/services.py:234-242 | When stop returns, also at once for a thread that is not alive, the thread is over; if no exception ended it, it has dealt with every channel it dialed and none of them rings; if one did, it has dealt with none; so the clean-up is complete exactly if no exception ended the thread or it originated nothing |
| ContactDialer.StopReturns | wazo_calld/plugins/dial_mobile/services.py:234-242 | stop never waits forever: while it waits the thread is never blocked, each of its steps brings it nearer to its end, and no other step sets it back |
| ContactDialer.OnlyWokenUpReads | wazo_calld/plugins/dial_mobile/services.py:254-280 | The thread does not spin: over any run it reads the contacts once at the start and then at most once for each time it was woken up |
| ContactDialer.EachPassEnds | wazo_calld/plugins/dial_mobile/services.py:282-318 | Each way through the contacts it read ends: every step of the thread on it brings it nearer to the end |
| ContactDialer.FailedOriginateLeavesRinging | wazo_calld/plugins/dial_mobile/services.py:298-318 | A run in which the originate of a second contact fails, stop returns at once, and the channel of the first keeps ringing |
| ContactDialer.Dialer.DialCurrentContacts | wazo_calld/plugins/dial_mobile/services.py:282-318 | The loop originates exactly the contacts, up to the stop flag or a refused originate, that were not called before, each once and in order; the called contacts and the dialed channels grow by exactly these |
| ContactDialer.Dialer.RemoveUnansweredChannels | wazo_calld/plugins/dial_mobile/services.py:320-328 | The loop hangs up exactly the dialed channels that neither answered nor left |
| ContactDialer.NewContactsAreNew | wazo_calld/plugins/dial_mobile/services.py:298-300 | The list of new contacts is duplicate-free and holds exactly the contacts that were not called |
| TransferRecord.RoundTrip | wazo_calld/plugins/transfers/transfer.py:52-106 | Reading a written transfer gives the same transfer back exactly when neither its id nor its bridge id is empty |
| TransferRecord.StatusNamesParse | wazo_calld/plugins/transfers/transfer.py:10-26 | The names of the statuses are pairwise different: each one is read back as itself |
| StatePersistor.KeyIsInjective | wazo_calld/plugin_helpers/ari_.py:140-178 | Variable names of different ids differ, and the only id whose record would overwrite the index is "INDEX" |
| StatePersistor.UnsetDeletes | wazo_calld/plugin_helpers/ari_.py:104-126 | Unsetting a variable through its GLOBAL_DELETE name removes exactly that variable |
| StatePersistor.UpsertRefines | wazo_calld/plugins/transfers/state_persistor.py:47-54 | A completed upsert on the flat string store is the update of a finite map from id to transfer: that id gets the transfer, other ids and all other variables are untouched, and the index lists exactly the stored ids, also if an earlier operation on that id was interrupted |
| StatePersistor.RemoveRefines | wazo_calld/plugins/transfers/state_persistor.py:56-67 | A completed remove is the removal from that map, with the same frame |
| StatePersistor.GetAfterUpsert | wazo_calld/plugins/transfers/state_persistor.py:31-54 | get after upsert returns the same transfer exactly when the id is neither empty nor "INDEX" and the bridge id is not empty |
| StatePersistor.StoreIsAMap | wazo_calld/plugins/transfers/state_persistor.py:47-67 | From an Asterisk without any such variable on, after any sequence of upserts and removes, the flat variables hold exactly what a map would, the index lists exactly the stored ids, and no variable of anybody else is touched |
| StatePersistor.IndexReadsAs | wazo_calld/plugin_helpers/ari_.py:130-143 | The index reads as a list of ids exactly if it is the JSON list of them, or if there is none and the list is empty |
| StatePersistor.UpsertInterrupted | wazo_calld/plugins/transfers/state_persistor.py:47-53 | Between the two writes of upsert the store is readable, only the record of that id differs, and an id not yet in the index is not listed |
| StatePersistor.RemoveInterrupted | wazo_calld/plugins/transfers/state_persistor.py:56-66 | Between the two writes of remove the dangling id is no longer listed and everything else is |
| StatePersistor.RerunUpsertRepairs | wazo_calld/plugins/transfers/state_persistor.py:47-54 | Running an interrupted upsert again gives the result of an uninterrupted one |
| StatePersistor.RerunRemoveRepairs | wazo_calld/plugins/transfers/state_persistor.py:56-67 | Running an interrupted remove again gives the result of an uninterrupted one |
| StatePersistor.ListIsTheContent | wazo_calld/plugins/transfers/state_persistor.py:69-82 | On any well formed store, also a half-written one, list raises nothing and returns every indexed transfer that has a record, once, and no other |
| StatePersistor.StatePersistor.Get | wazo_calld/plugins/transfers/state_persistor.py:31-34 | Returns the stored transfer, or a missing key exactly when none is stored |
| StatePersistor.StatePersistor.List | wazo_calld/plugins/transfers/state_persistor.py:69-82 | The loop returns exactly the stored transfers |
| StatePersistor.StatePersistor.GetByChannel | wazo_calld/plugins/transfers/state_persistor.py:36-45 | Fails exactly when no stored transfer has the channel in one of its three roles; otherwise returns such a transfer |
| StatePersistor.StatePersistor.Upsert | wazo_calld/plugins/transfers/state_persistor.py:47-54 | Its two writes put the transfer in the abstract map and touch nothing else |
| StatePersistor.StatePersistor.Remove | wazo_calld/plugins/transfers/state_persistor.py:56-67 | Its two writes, or one if the index does not know the id, take the id out of the abstract map and touch nothing else |
| TransferSafety.TransitionDescends | wazo_calld/plugins/transfers/state.py:451-1045 | For every state, event and world: a transition keeps the parties of the transfer, keeps the status or strictly lowers a rank, never turns blind into attended, notifies the end once and exactly when it reaches it; one that raises changes nothing of the record |
| TransferSafety.ReturnsExactlyWhenAccepted | wazo_calld/plugins/transfers/state.py:176-202 | For every state, event and world: the transition returns exactly when one table of states, events and live parties accepts it; otherwise it raises or does not exist |
| TransferSafety.TransitionTouchesOnlyParticipants | wazo_calld/plugins/transfers/state.py:211-448 | No transition changes liveness, bridge, hold, ringing or variables of a channel that has no role in the transfer |
| TransferParties.ProtocolIsFollowed | wazo_calld/plugins/transfers/state.py:746-1018 | For every transfer under way, every world and every act, the state classes reach the state, and leave the parties, that one table of the protocol prescribes; at the end the two who are left talk to each other: in the bridge, not on hold, not hearing ringing, without transfer variables |
| TransferParties.NobodyIsStranded | wazo_calld/plugins/transfers/state.py:746-1018 | Over any run in which each hangup is handled before the next party leaves: at every moment the live parties are those of the state, or the transfer has ended with nobody left or exactly two who talk to each other |
| TransferParties.RingbackIsUnderWay | wazo_calld/plugins/transfers/state.py:296-318 | Every start that reaches ringback while the transferred party is there leads to a transfer under way |
| TransferMoves.MovesAreTracked | wazo_calld/plugins/transfers/state.py:530-744 | The status says who has moved into stasis: in each of the six states every event goes the way that those who moved so far, and a cancel meanwhile, call for: the second party to arrive starts the attended part, a cancelled transfer ends with the first arrival, and who is hung up at the end |
| TransferMoves.AttendedStart | wazo_calld/plugins/transfers/state.py:296-318 | Every start of the attended part creates the recipient, puts the transferred party on hold, lets the initiator hear ringing and marks the recipient, and changes nothing else for any channel |
| TransferMoves.WorldStaysConsistent | wazo_calld/plugins/transfers/state.py:451-1045 | Before and after every transition, only channels that are there are in bridges, on hold, ringing or marked, and only in bridges that exist |
| TransferMoves.TransitionsNotify | wazo_calld/plugins/transfers/state.py:451-1045 | What clients are notified of a transition, for every state, event and world, from the event and the two states alone; a transition that raises notifies nothing |
| TransferMoves.MissingExactly | wazo_calld/plugins/transfers/state.py:141-202 | An event has no handler at all exactly in the two states without a class, and when a party arrives in stasis that has no business to arrive in that state |
| TransferMoves.EverybodyHearsRight | wazo_calld/plugins/transfers/state.py:746-1018 | Over any run of a transfer under way: the transferred party is on hold until somebody is free for it, the initiator hears ringing until the answer, a blind transferred party hears ringing, and everybody who is there is marked |
| TransferMoves.CreateRefusesExactly | wazo_calld/plugins/transfers/services.py:67-96 | create is refused without any effect exactly if one of the channels is gone, the extension does not exist, or the initiator is locked |
| TransferMoves.CreateReaches | wazo_calld/plugins/transfers/services.py:67-129 | For every answer of the world: how far create gets, to the attended part, past it when blind, to waiting for the channels to move, or to its first record if the start fails; what the record says; and that the initiator stays locked exactly if it succeeds |
| TransferMoves.PartyHasItsRole | wazo_calld/plugins/transfers/transfer.py:108-116 | Each of three different parties has its own role |
| TransferMoves.RoleIsOfItsParty | wazo_calld/plugins/transfers/transfer.py:108-116 | A channel has a role exactly if the transfer involves it, and is the party of that role |
| TransferService.HangupIsPrescribed | wazo_calld/plugins/transfers/stasis.py:179-192 | A hangup of a party of a transfer that was under way until it left: the handler succeeds, the parties are where the protocol puts them, and the record is in the state it prescribes or removed at the end |
| TransferRecovery.RecoveryEndsExactly | wazo_calld/plugins/transfers/stasis.py:113-128 | In any world, replaying the lost hangups of a ringing, answered, blind or abandoned transfer raises nothing and ends it exactly when what is left cannot go on |
| TransferRecovery.TwoGoneCannotGoOn | wazo_calld/plugins/transfers/stasis.py:119-127 | With any two of its three parties gone a transfer cannot go on |
| TransferRecovery.RecoveryRepairs | wazo_calld/plugins/transfers/stasis.py:113-128 | Whichever parties left while nobody listened, recovery makes the transfer consistent again or ends it with nobody or two talking parties; except that the transferred party stays alone in the bridge exactly when it is the only one left of an answered transfer |
| TransferRestart.RecoveryOfTheStore | wazo_calld/plugins/transfers/stasis.py:113-128 | On any set of persisted transfers and in any world the whole loop raises nothing, every listed transfer that could not go on leaves the store, and records that are not listed are untouched |
| TransferParties.OrderOfHangupsMatters | wazo_calld/plugins/transfers/state.py:746-1018 | Why hangups must be handled in turn: for every state, any two parties that leave together and both orders of their hangups, the third one stays alone exactly if the transfer was answered and the hangup of the initiator is handled first; otherwise nobody is left |
| TransferParties.SecondReportsHelpOnce | wazo_calld/plugins/transfers/state.py:876-1045 | Of these two cases the second report of the initiator hangup repairs the one in which the transferred party left; when the recipient left, the transfer is over and no report repairs it |
| TransferRecovery.RecoveryRaisesExactly | wazo_calld/plugins/transfers/stasis.py:119-127 | For every transfer that has no recipient yet, recovery raises exactly when it has not ended before the last of the three checks, because its states accept no recipient hangup |
| TransferRestart.StartingTransferStopsRecovery | wazo_calld/plugins/transfers/stasis.py:113-128 | One listed transfer that is still starting with its parties there makes the whole loop fail, and every listed transfer after it keeps its record whatever it lost |
| TransferPersistence.TransitionsArePersisted | wazo_calld/plugins/transfers/state.py:116-138 | Every transition, seen in the flat variable store, changes the stored content exactly as it changes the map of records, and keeps the index exact |
| TransferSystem.CreateKeeps | wazo_calld/plugins/transfers/services.py:89-129 | create, from the lock to the blind completion, keeps records, ends and locks sound unless it leaks its lock |
| TransferSystem.CreateLeaksTheLock | wazo_calld/plugins/transfers/services.py:89-96 | create leaves the lock held without a record exactly when, after taking it, the initiator has no user any more or the transferred party is gone; every later create for that initiator is then refused |
| TransferRuns.LockedMeansPersisted | wazo_calld/plugins/transfers/transfer_lock.py:19-33 | On every run without such a leak the locked calls are initiators of persisted transfers |
| TransferCreates.CreateIsBoth | wazo_calld/plugins/transfers/services.py:89-129 | create is its part before the lock of the state machine followed by its part under it |
| TransferCreates.LockedMeansPersistedOrInFlight | wazo_calld/plugins/transfers/services.py:89-110 | With other handlers running between the lock of a create and its record: as long as no create gives up there, every locked call is the initiator of a persisted transfer or of a create between the two |
| TransferCreates.OneTransferOrRequestEach | wazo_calld/plugins/transfers/services.py:89-110 | And as long as nothing raises, the locked calls are exactly those initiators, and no two transfers or requests in flight have the same one |
| TransferRuns.OneTransferPerInitiator | wazo_calld/plugins/transfers/state.py:116-138 | On every run in which nothing raises, the locked calls are exactly the initiators of the persisted transfers and no two transfers have the same initiator |
| TransferRuns.RaisingAllowsASecond | wazo_calld/plugins/transfers/state.py:121-126 | Every transition that raises keeps the record and drops the lock, so that a second transfer of the same initiator can be persisted beside the first |
| TransferRuns.EndedOnceWhenRemoved | wazo_calld/plugins/transfers/state.py:1025-1045 | On every run the end of a transfer is notified at most once, and it has been exactly when the transfer was created and its record is gone |
| TransferRuns.TransfersOnlyDescend | wazo_calld/plugins/transfers/state.py:451-1045 | Between any two moments of a run a transfer keeps its parties, its status is the same or of lower rank, blind stays blind, and a removed transfer does not come back |
| TransferRuns.FewStatusChanges | wazo_calld/plugins/transfers/state.py:451-1045 | From the moment it exists a transfer changes its status at most seven times |
| TransferBridges.CleanerSparesTheParties | wazo_calld/plugins/transfers/stasis.py:248-306 | While a transfer is under way and persisted, or settled and removed, cleaning its bridge leaves every party alive and in its bridge |
| TransferBridges.TransitionsKeepBridgesMarked | wazo_calld/plugins/transfers/state.py:280-294 | Every transition keeps the bridge of every transfer marked with its id, which is what the cleaner relies on |
| TransferBridges.CleaningIsExact | wazo_calld/plugins/transfers/stasis.py:248-306 | The cleaner hangs up exactly a channel that is alone in a bridge that belongs to no persisted transfer, destroys that bridge, and does nothing otherwise |
| TransferBridges.CompleteIsNeverCut | wazo_calld/plugins/transfers/state.py:910-928 | At every point of complete the transfer bridge holds at least two channels, so a cleaner that looks at it then does nothing, however late and in whatever store it acts |
| TransferBridges.LoneExactly | wazo_calld/plugins/transfers/state.py:391-429 | At every point of cancel of an answered transfer: a snapshot of the bridge shows a lone channel exactly between the hangup of the recipient and the move of the transferred party, and exactly if the bridge held initiator and recipient only |
| TransferBridges.CancelIsCutExactly | wazo_calld/plugins/transfers/stasis.py:248-306 | A cleaner that looks at the bridge during cancel and acts after it hangs the initiator up, although it talks to the transferred party, exactly if its snapshot showed one channel and the record is gone; otherwise it does nothing |
| TransferMarks.BridgesStayMarked | wazo_calld/plugins/transfers/state.py:280-294 | On every run of all transfers, as long as nobody else uses transfer ids for bridges, the bridge of every persisted transfer is marked with its id whenever it exists |
| TransferMarks.PersistedMeansSpared | wazo_calld/plugins/transfers/stasis.py:248-306 | On these runs the cleaner never touches the bridge of a persisted transfer, however old its snapshot |
| TransferObjects.TransferLock.Acquire | wazo_calld/plugins/transfers/transfer_lock.py:19-27 | Succeeds exactly when the call is not locked, and locks it |
| TransferObjects.TransferLock.Release | wazo_calld/plugins/transfers/transfer_lock.py:29-33 | Unlocks that call and no other |
| TransferObjects.Ari.AddChannel | wazo_calld/plugins/transfers/state.py:280-294 | Creates and marks the transfer bridge only if it is missing, and moves a live channel into it out of any other |
| TransferObjects.Ari.DestroyOldBridge | wazo_calld/plugins/transfers/state.py:475-486 | Destroys the old bridge exactly when it holds just the two parties |
| TransferObjects.TransferState.DoCancel | wazo_calld/plugins/transfers/state.py:391-429 | The recipient leaves and the others are put together, or all are hung up |
| TransferObjects.TransferState.HangupAllParticipants | wazo_calld/plugins/transfers/state.py:431-448 | Hangs up all three, whoever is gone already |
| TransferObjects.TransferState.DoStartAttended | wazo_calld/plugins/transfers/state.py:296-318 | Hold, ring, originate: fails exactly when the initiator is gone or the originate fails |
| TransferObjects.TransferState.OnReady | wazo_calld/plugins/transfers/state.py:451-493 | Start raises without a user or with a party gone, else variables are set, a bridge of just the two is destroyed and the attended part begins; any other event raises; transfer, notices, lock and ARI end up as the state machine says |
| TransferObjects.TransferState.OnNonStasis | wazo_calld/plugins/transfers/state.py:496-526 | Start sets the variables of both parties and redirects them, or raises; transfer, notices, lock and ARI end up as the state machine says |
| TransferObjects.TransferState.OnNoneMoved | wazo_calld/plugins/transfers/state.py:529-572 | Waits for either party; complete and an initiator hangup only turn the transfer blind; a transferred hangup ends it; transfer, notices, lock and ARI end up as the state machine says |
| TransferObjects.TransferState.OnInitiatorMoved | wazo_calld/plugins/transfers/state.py:575-614 | The transferred party completes the move and the attended part begins; its hangup hangs up everyone; transfer, notices, lock and ARI end up as the state machine says |
| TransferObjects.TransferState.OnTransferredMoved | wazo_calld/plugins/transfers/state.py:617-653 | The initiator completes the move and the attended part begins; a transferred hangup ends the transfer; transfer, notices, lock and ARI end up as the state machine says |
| TransferObjects.TransferState.OnInitiatorMovedCancelled | wazo_calld/plugins/transfers/state.py:656-683 | The arrival of the transferred party cancels and ends; its hangup hangs up everyone; transfer, notices, lock and ARI end up as the state machine says |
| TransferObjects.TransferState.OnTransferredMovedCancelled | wazo_calld/plugins/transfers/state.py:686-712 | The arrival of the initiator cancels and ends; its hangup hangs up everyone; transfer, notices, lock and ARI end up as the state machine says |
| TransferObjects.TransferState.OnNoneMovedCancelled | wazo_calld/plugins/transfers/state.py:715-743 | The arrival of either party cancels and ends; a hangup ends; transfer, notices, lock and ARI end up as the state machine says |
| TransferObjects.TransferState.OnRingback | wazo_calld/plugins/transfers/state.py:746-826 | Answer, cancel, complete and every hangup, with the parties that may be gone; transfer, notices, lock and ARI end up as the state machine says |
| TransferObjects.TransferState.OnBlindTransferred | wazo_calld/plugins/transfers/state.py:829-873 | The answer puts transferred party and recipient together; complete raises; transfer, notices, lock and ARI end up as the state machine says |
| TransferObjects.TransferState.OnAnswered | wazo_calld/plugins/transfers/state.py:876-953 | Complete and an initiator hangup connect the transferred party to the recipient, or raise when it is gone; transfer, notices, lock and ARI end up as the state machine says |
| TransferObjects.TransferState.OnAbandoned | wazo_calld/plugins/transfers/state.py:956-1018 | The answer connects initiator and recipient and the state stays; the hangup of either ends it; transfer, notices, lock and ARI end up as the state machine says |
| TransferObjects.TransferState.OnEnded | wazo_calld/plugins/transfers/state.py:1021-1045 | Hangups change nothing, everything else raises; transfer, notices, lock and ARI end up as the state machine says |
| TransferObjects.TransferState.Dispatch | wazo_calld/plugins/transfers/state.py:68-71 | The status of the record selects the state class |
| TransferService.TransfersService.Transition | wazo_calld/plugins/transfers/state.py:116-138 | The transition wrapper: on an exception the lock is released and the record left, otherwise the record is written, or removed at the end |
| TransferService.TransfersService.CreateNew | wazo_calld/plugins/transfers/services.py:67-129 | create: refused without effect, leaking its lock, failing at the start with the record left, or started and completed if blind |
| TransferService.TransfersService.CreateTransfer | wazo_calld/plugins/transfers/stasis.py:211-231 | A party joins stasis; a transfer that is blind by then completes at once |
| TransferService.TransfersService.Hangup | wazo_calld/plugins/transfers/stasis.py:179-192 | The hangup of a channel goes to a transfer that it is the transferred, the initiating or the recipient channel of, as the hangup of that party, and is ignored exactly when there is none; on a transfer that was under way until the channel left it has the outcome that the protocol prescribes |
| TransferService.TransfersService.HandleEvent | wazo_calld/plugins/transfers/services.py:212-232 | One event for a persisted transfer: record, lock, end notice and ARI change together as the state machine says |
| TransferService.TransfersService.ProcessLostHangups | wazo_calld/plugins/transfers/stasis.py:113-128 | The loop over the persisted transfers does what the recovery of the store says |
| TransferService.TransfersService.CleanLoneChannel | wazo_calld/plugins/transfers/stasis.py:248-306 | Hangs up the only channel of a bridge and destroys the bridge, unless the bridge is marked with a persisted transfer |
| Relocates.FireIsSound | wazo_calld/plugins/relocates/state.py:85-254 | For every state and event: each set_state strictly lowers the rank; completed is published at most once, only at the end, with recipient and relocated bridged and nobody but the initiator hung up; the end is published exactly when it is reached |
| Relocates.EventsHaveConsequences | wazo_calld/plugins/relocates/state.py:85-254 | Every event in every state has exactly the consequences of one table, read by event: which channels it hangs up, which get into the bridge, what it publishes in which order, where it leads, and whether it raises |
| Relocates.HungUpExactly | wazo_calld/plugins/relocates/state.py:111-237 | After any sequence of events exactly those channels are hung up that one of the events hangs up by that table: the initiator on completion, the recipient on a cancel or the loss of another party, the one that is left while the relocated channel moves |
| Relocates.EndExactly | wazo_calld/plugins/relocates/state.py:85-254 | The end is published twice by a refused originate, once by any other event that reaches the end, and not by any other event |
| Relocates.PublishedExactly | wazo_calld/plugins/relocates/state.py:85-254 | After any sequence of events a new relocate has published its end once if it is over, twice if one of them was its refused originate, and not before; and completed once exactly if one of them completed it |
| Relocates.CompletedExactly | wazo_calld/plugins/relocates/state.py:34-45 | completed is published by exactly the completing events whose bridging got both channels in |
| RelocateCollection.CollectionHoldsTheLive | wazo_calld/plugins/relocates/relocate.py:96-136 | On every run a relocate is in the collection exactly while it has not ended, and live relocates have pairwise different initiators |
| RelocateCollection.RelocatesOnlyDescend | wazo_calld/plugins/relocates/relocate.py:35-40 | Between any two moments of a run a relocate keeps its channels and its state is the same or of strictly lower rank |
| RelocateCollection.RelocateObject.OnReady | wazo_calld/plugins/relocates/state.py:85-108 | initiate: a new channel rings, an HTTP error ends the relocate and raises, any other error leaves it ready and in the collection |
| RelocateCollection.RelocateObject.OnRecipientRing | wazo_calld/plugins/relocates/state.py:111-158 | An answer completes at once, waits for the relocated party, or waits for the API; every hangup but the one of the recipient hangs the recipient up and ends |
| RelocateCollection.RelocateObject.OnWaitingForCompletion | wazo_calld/plugins/relocates/state.py:161-200 | Completion bridges at once or waits for the relocated party; hangups and cancel end |
| RelocateCollection.RelocateObject.OnWaitingForRelocated | wazo_calld/plugins/relocates/state.py:203-237 | The arrival of the relocated party bridges and ends; cancel is too late; the initiator no longer matters |
| RelocateCollection.RelocateObject.BridgeBoth | wazo_calld/plugins/relocates/state.py:34-45 | Publishes completed only if both channels got into the bridge |
| RelocateCollection.Collection.FindByChannel | wazo_calld/plugins/relocates/relocate.py:126-136 | Finds a relocate exactly when one in the collection has the channel in a role |
| RelocateCollection.Collection.Add | wazo_calld/plugins/relocates/services.py:185-197 | Refused exactly when the initiator has a role in a live relocate |
| RelocateCollection.Collection.Deliver | wazo_calld/plugins/relocates/stasis.py:53-71 | An event changes that one relocate, which leaves the collection exactly when it ends |
| ConfdCache.IndicesStayConsistent | wazo_calld/plugins/endpoints/services.py:154-335 | Over any sequence of events and loads every entry agrees with its record in technology, name and id; and each id has always been at most once in each index of all technologies exactly if no add or load brought it a second time |
| ConfdCache.UpdateIsExact | wazo_calld/plugins/endpoints/services.py:248-254 | After an update the id is at exactly the places of the new record, once in each index it belongs to, and entries of other ids are kept unless the new record took their place |
| ConfdCache.DeleteKeeps | wazo_calld/plugins/endpoints/services.py:181-203 | After a delete nothing carries the id and every other entry is kept |
| ConfdCache.AddKeeps | wazo_calld/plugins/endpoints/services.py:154-179 | Adding a record keeps entries consistent, and ids unique exactly if the id is nowhere else in the indices that the record goes to |
| ConfdCache.AddingTwiceKeepsTheOldName | wazo_calld/plugins/endpoints/services.py:154-165 | An id that is added twice under different names answers to both |
| ConfdCache.PlacesFit | wazo_calld/plugins/endpoints/services.py:154-179 | The places chosen for lines and trunks agree with the record and are one per index |
| ConfdCache.LoadKeeps | wazo_calld/plugins/endpoints/services.py:277-335 | Loading keeps every entry in agreement with its record, whatever events came before, and ids unique exactly if no listed id ends up, or already was, at another place of the same index |
| ConfdCache.FirstLoadHasNoClash | wazo_calld/plugins/endpoints/services.py:263-335 | A listing in which each id comes once has no such clash when no event came before it |
| ConfdCache.TrunkListingFits | wazo_calld/plugins/endpoints/services.py:296-335 | Every trunk that confd lists is put at places that agree with its record, one in each index |
| ConfdCache.LoadedLine | wazo_calld/plugins/endpoints/services.py:277-289 | What a load leaves under a technology and name: the last listed line with that protocol and name, or else what was there |
| ConfdCache.LoadedTrunk | wazo_calld/plugins/endpoints/services.py:296-335 | What a load leaves in each trunk index: the last listed trunk that has this name, id or user name with that kind of endpoint, or else what was there |
| ConfdCache.AddedIsFound | wazo_calld/plugins/endpoints/services.py:154-179 | A line or trunk that is added is found by its name and, if it has one, its user name, a trunk by its id, and everything else as before |
| ConfdCache.ToRemove | wazo_calld/plugins/endpoints/services.py:181-188 | The three nested loops collect exactly the places that carry the id, each once |
| ConfdCache.ConfdCache.AddLine | wazo_calld/plugins/endpoints/services.py:154-165 | Puts the record at the places of a line and changes nothing else |
| ConfdCache.ConfdCache.AddTrunk | wazo_calld/plugins/endpoints/services.py:167-179 | Puts the record at the places of a trunk and changes nothing else |
| ConfdCache.ConfdCache.DeleteLine | wazo_calld/plugins/endpoints/services.py:181-191 | Deletes exactly the collected entries; each is there when its turn comes |
| ConfdCache.ConfdCache.DeleteTrunk | wazo_calld/plugins/endpoints/services.py:193-203 | Deletes exactly the collected entries; each is there when its turn comes |
| ConfdCache.ConfdCache.UpdateLine | wazo_calld/plugins/endpoints/services.py:248-250 | Afterwards the id is at exactly the new places, lookup by the new name returns it, and other ids are kept |
| ConfdCache.ConfdCache.UpdateTrunk | wazo_calld/plugins/endpoints/services.py:252-254 | Afterwards the id is at exactly the new places, lookup by the new name returns it, and other ids are kept |
| ConfdCache.ConfdCache.UpdateLineCache | wazo_calld/plugins/endpoints/services.py:277-289 | The loop leaves the last listed line at every place and keeps the rest |
| ConfdCache.ConfdCache.UpdateTrunkCache | wazo_calld/plugins/endpoints/services.py:296-335 | The loop leaves the last listed trunk at every place and keeps the rest |
| ConfdCache.ConfdCache.Initialize | wazo_calld/plugins/endpoints/services.py:263-275 | The first reading operation loads both tables over what events have put there, later ones change nothing |
| ConfdCache.ConfdCache.EndpointByIndex | wazo_calld/plugins/endpoints/services.py:256-261 | Finds exactly the record under the confd name of the technology: PJSIP under sip, IAX2 under iax, SCCP under sccp, any other under itself |
| ConfdCache.ConfdCache.GetLine | wazo_calld/plugins/endpoints/services.py:205-206 | Returns the record under the confd name of the technology and the line name; on a cache that was not loaded, the last line that confd lists with that protocol and name, or else what an event had put there |
| ConfdCache.ConfdCache.GetTrunk | wazo_calld/plugins/endpoints/services.py:208-209 | Returns the record under the confd name of the technology and the trunk name; on a cache that was not loaded, the last trunk that confd lists with that endpoint and name, or else what an event had put there |
| ConfdCache.ConfdCache.GetTrunkByUsername | wazo_calld/plugins/endpoints/services.py:219-222 | The same by user name: the first client_uri of a SIP trunk, the name of any other |
| ConfdCache.ConfdCache.GetTrunkById | wazo_calld/plugins/endpoints/services.py:211-217 | Finds the trunk under its id in the first technology that has it, or there is none; an empty cache is not loaded; the loop fails exactly when the load of its first turn brings a new technology and that turn finds nothing |
| ConfdCache.ConfdCache.Listed | wazo_calld/plugins/endpoints/services.py:228-234 | Returns the records of the tenant in the name index, each entry once, and no other |
| ConfdCache.ConfdCache.ListLines | wazo_calld/plugins/endpoints/services.py:224-234 | Returns the lines of the tenant, each entry of the name index once, and no other; a cache that was not loaded holds what confd lists over what events had put there |

## Left out

- DialMobileService.Service.JoinBridge: with no other thread between its parts; the interleavings are those of the state machine, of which the parts are proved to be steps.
- DialMobileService.Service.NotifyChannelGone: with no other thread between its parts, as for JoinBridge.
- TransferParties.NobodyIsStranded: starts at ringback; the channels of the states that move into stasis are left to other handlers by the code itself.
- ContactDialer.Dialer.DialCurrentContacts: what the stop flag says before each contact is a parameter; the interleavings are those of the state machine in the same file.
- ContactDialer.StoppedMeansCleanedUp: errors of ARI other than not found during the clean-up itself, which would end it early, and a second caller of `stop`.
- TransferService.TransfersService.Hangup: a channel with a role in several transfers may go to any of them; the order of the stored index is not modelled.
- The service object keeps the records in a dictionary; `TransferPersistence.TransitionsArePersisted` proves that the variables of Asterisk go along with it, but the two objects do not call each other.
- Real time, sleeps, lock timeouts and thread fairness: only the order of steps matters.
- The per-call lock objects: a lock is a set member, and who holds it is known from the block it is in; a thread that waits for a lock is not seen until it has it.
- `transferred_moh_stop`, `process_answered_calls`, caller id updates and `create_from_user`: no effect on the modelled state, or one event that is modelled.
- An index variable that is JSON but not a list of strings is unreadable here, where Python would iterate over it; it arises only from a transfer with the id "INDEX".
- A stored status that is not one of the known names is unreadable here; the code fails later, when it makes the state.
- A channel that is alive but no longer in stasis during a transfer, and errors of ARI other than not found, except at originate and redirect.
- Pickup marks, user hints, `clean_bridge` and `on_calld_stopping` of dial_mobile, and `has_a_registered_mobile_and_pending_push`.
- Relocate destinations, timeouts and notifications outside the object: the outcome of the originate is a parameter.
- `StatusCache` and `EndpointsService`: plain caches and a join of two lookups.
- HTTP resources, schemas, bus publishing, configuration and authentication.
