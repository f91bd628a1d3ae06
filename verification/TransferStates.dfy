/** The state machine of call transfers: a small ARI world, the helpers shared by the states, and every
    state class as a function from an event to what it does. */
module TransferStates {
  import opened Wrappers
  import opened TransferRecord

  // ---- The world ----

  /** The bridges that exist, and the transfer each one is marked with. */
  datatype Bridges = Bridges(existing: set<string>, marks: map<string, string>)

  /** `at` says which bridge a channel is in; `tagged` are the channels that carry transfer variables. */
  datatype World = World(
    live: set<string>,
    at: map<string, string>,
    held: set<string>,
    ringing: set<string>,
    tagged: set<string>,
    bridges: Bridges)
  {
    /** Only live channels are in bridges, held, ringing or tagged; no channel has an empty id. */
    predicate Consistent()
    {
      && at.Keys <= live && held <= live && ringing <= live && tagged <= live && "" !in live
      && forall c :: c in at ==> at[c] in bridges.existing
    }

    function Members(bridge: string): set<string>
    {
      set c | c in at && at[c] == bridge
    }
  }

  /** A channel leaves, whoever made it leave. */
  function Leave(w: World, c: string): World
  {
    w.(live := w.live - {c}, at := w.at - {c}, held := w.held - {c}, ringing := w.ringing - {c},
        tagged := w.tagged - {c})
  }

  // ---- ARI requests; one that needs a live channel fails when it is gone ----

  datatype Tried = Tried(ok: bool, w: World)

  /** A hangup that ignores a channel that is gone, and an absent or empty channel id. */
  function Hangup(w: World, c: string): World
  {
    if c == "" then w else Leave(w, c)
  }

  function HangupRecipient(w: World, t: Transfer): World
  {
    if t.recipientCall.Some? then Hangup(w, t.recipientCall.value) else w
  }

  function Hold(w: World, c: string): World
  {
    if c in w.live then w.(held := w.held + {c}) else w
  }

  function Unhold(w: World, c: string): Tried
  {
    if c in w.live then Tried(true, w.(held := w.held - {c})) else Tried(false, w)
  }

  function Ring(w: World, c: string): Tried
  {
    if c in w.live then Tried(true, w.(ringing := w.ringing + {c})) else Tried(false, w)
  }

  function Unring(w: World, c: string): Tried
  {
    if c in w.live then Tried(true, w.(ringing := w.ringing - {c})) else Tried(false, w)
  }

  function Untag(w: World, c: string): World
  {
    w.(tagged := w.tagged - {c})
  }

  function Tag(w: World, c: string): Tried
  {
    if c in w.live then Tried(true, w.(tagged := w.tagged + {c})) else Tried(false, w)
  }

  /** `_get_or_create_transfer_bridge`: only a bridge that is created here is marked. */
  function WithBridge(w: World, t: Transfer): World
  {
    if t.bridgeId in w.bridges.existing then w
    else w.(bridges := Bridges(w.bridges.existing + {t.bridgeId}, w.bridges.marks[t.bridgeId := t.id]))
  }

  /** Moves a channel into the transfer bridge, out of any other bridge. */
  function Move(w: World, t: Transfer, c: string): Tried
  {
    var w1 := WithBridge(w, t);
    if c in w.live then Tried(true, w1.(at := w1.at[c := t.bridgeId])) else Tried(false, w1)
  }

  function MoveRecipient(w: World, t: Transfer): Tried
  {
    if t.recipientCall.Some? && t.recipientCall.value != "" then Move(w, t, t.recipientCall.value) else Tried(false, w)
  }

  /** Destroying a bridge also ends its variables. */
  function DestroyBridge(w: World, bridge: string): World
  {
    w.(at := map c | c in w.at && w.at[c] != bridge :: w.at[c],
       bridges := Bridges(w.bridges.existing - {bridge}, w.bridges.marks - {bridge}))
  }

  // ---- What the states share ----

  datatype Note = Updated | AbandonedNote | CancelledNote | CompletedNote | AnsweredNote | EndedNote

  function HangupAll(w: World, t: Transfer): World
  {
    Hangup(Hangup(HangupRecipient(w, t), t.initiatorCall), t.transferredCall)
  }

  function Abandon(w: World, t: Transfer): World
  {
    Hangup(w, t.transferredCall)
  }

  function UnholdAndMove(w: World, t: Transfer): Tried
  {
    var unheld := Unhold(w, t.transferredCall);
    if !unheld.ok then unheld else Move(unheld.w, t, t.transferredCall)
  }

  function Rebridge(w: World, t: Transfer): Tried
  {
    var unrung := Unring(w, t.initiatorCall);
    if !unrung.ok then unrung
    else
      var moved := UnholdAndMove(unrung.w, t);
      if !moved.ok then moved else Move(moved.w, t, t.initiatorCall)
  }

  /** The recipient leaves; the two others are put together, or all are hung up when one of them is gone. */
  function CancelTransfer(w: World, t: Transfer): World
  {
    var left := HangupRecipient(Untag(Untag(w, t.transferredCall), t.initiatorCall), t);
    var rebridged := Rebridge(left, t);
    if rebridged.ok then rebridged.w else HangupAll(rebridged.w, t)
  }

  function UntagRecipient(w: World, t: Transfer): World
  {
    if t.recipientCall.Some? then Untag(w, t.recipientCall.value) else w
  }

  // ---- Events and outcomes ----

  /** `recipient` is the channel ARI creates, None when the originate fails. */
  datatype Event =
    | TransferredHangup
    | InitiatorHangup
    | RecipientHangup
    | RecipientAnswer
    | Complete
    | Cancel
    | TransferredJoined(recipient: Option<string>)
    | InitiatorJoined(recipient: Option<string>)
    | Start(hasUser: bool, redirected: bool, recipient: Option<string>)

  /** `Raised`: the transition ran and raised, so the lock is released and the record is not written;
      `Missing`: the state has no such method, so nothing ran at all. */
  datatype Verdict = Returned | Raised | Missing

  datatype Outcome = Outcome(verdict: Verdict, t: Transfer, w: World, notes: seq<Note>)

  function To(status: Status, t: Transfer, w: World, notes: seq<Note>): Outcome
  {
    var entry := if status.Ended? then [EndedNote] else if status.Answered? then [AnsweredNote] else [];
    Outcome(Returned, t.(status := status), w, notes + entry)
  }

  function Stay(t: Transfer, w: World): Outcome { Outcome(Returned, t, w, []) }

  function Raise(t: Transfer, w: World): Outcome { Outcome(Raised, t, w, []) }

  function Unsupported(event: Event, t: Transfer, w: World): Outcome
  {
    Outcome(if event.TransferredJoined? || event.InitiatorJoined? then Missing else Raised, t, w, [])
  }

  function GoBlind(t: Transfer, w: World): Outcome { Stay(t.(flow := Blind), w) }

  function EndByCancel(t: Transfer, w: World): Outcome
  {
    To(Ended, t, CancelTransfer(w, t), [CancelledNote])
  }

  /** `_start_attended` and the step to ringback; the originate looks the initiator up first. */
  function StartAttended(t: Transfer, w: World, recipient: Option<string>): Outcome
  {
    var held := Hold(w, t.transferredCall);
    var rung := Ring(held, t.initiatorCall).w;
    if t.initiatorCall !in w.live || recipient.None? then Raise(t, rung)
    else
      var r := recipient.value;
      To(Ringback, t.(recipientCall := recipient), rung.(live := rung.live + {r}, tagged := rung.tagged + {r}),
          [Updated])
  }

  /** The transfer variables must be readable on the initiator before the attended part starts. */
  function Joined(t: Transfer, w: World, recipient: Option<string>): Outcome
  {
    if t.initiatorCall !in w.live then Raise(t, w) else StartAttended(t, w, recipient)
  }

  // ---- The states ----

  function TagBoth(w: World, t: Transfer): Tried
  {
    var first := Tag(w, t.transferredCall);
    if !first.ok then first else Tag(first.w, t.initiatorCall)
  }

  function LeaveOldBridge(w: World, t: Transfer): World
  {
    if t.initiatorCall in w.at && w.Members(w.at[t.initiatorCall]) == {t.transferredCall, t.initiatorCall}
    then DestroyBridge(w, w.at[t.initiatorCall]) else w
  }

  function InReady(event: Event, t: Transfer, w: World): Outcome
  {
    if !event.Start? then Unsupported(event, t, w)
    else if !event.hasUser then Raise(t, w)
    else
      var tagged := TagBoth(w, t);
      if !tagged.ok then Raise(t, tagged.w) else StartAttended(t, LeaveOldBridge(tagged.w, t), event.recipient)
  }

  function InNonStasis(event: Event, t: Transfer, w: World): Outcome
  {
    if !event.Start? then Unsupported(event, t, w)
    else
      var tagged := TagBoth(w, t);
      if !tagged.ok || !event.redirected then Raise(t, tagged.w) else To(NoneMoved, t, tagged.w, [])
  }

  function InNoneMoved(event: Event, t: Transfer, w: World): Outcome
  {
    match event
    case Complete => GoBlind(t, w)
    case InitiatorHangup => GoBlind(t, w)
    case InitiatorJoined(_) => To(InitiatorMoved, t, w, [])
    case TransferredHangup => To(Ended, t, Abandon(w, t), [AbandonedNote])
    case TransferredJoined(_) => To(TransferredMoved, t, w, [])
    case Cancel => To(NoneMovedCancelled, t, w, [])
    case _ => Unsupported(event, t, w)
  }

  function InInitiatorMoved(event: Event, t: Transfer, w: World): Outcome
  {
    match event
    case Complete => GoBlind(t, w)
    case InitiatorHangup => GoBlind(t, w)
    case TransferredJoined(recipient) => Joined(t, w, recipient)
    case TransferredHangup => To(Ended, t, HangupAll(Abandon(w, t), t), [AbandonedNote])
    case Cancel => To(InitiatorMovedCancelled, t, w, [])
    case _ => Unsupported(event, t, w)
  }

  function InTransferredMoved(event: Event, t: Transfer, w: World): Outcome
  {
    match event
    case Complete => GoBlind(t, w)
    case InitiatorHangup => GoBlind(t, w)
    case InitiatorJoined(recipient) => Joined(t, w, recipient)
    case TransferredHangup => To(Ended, t, Abandon(w, t), [AbandonedNote])
    case Cancel => To(TransferredMovedCancelled, t, w, [])
    case _ => Unsupported(event, t, w)
  }

  function InInitiatorMovedCancelled(event: Event, t: Transfer, w: World): Outcome
  {
    match event
    case InitiatorHangup => To(Ended, t, w, [])
    case TransferredJoined(_) => EndByCancel(t, w)
    case TransferredHangup => To(Ended, t, HangupAll(Abandon(w, t), t), [AbandonedNote])
    case Cancel => Stay(t, w)
    case _ => Unsupported(event, t, w)
  }

  function InTransferredMovedCancelled(event: Event, t: Transfer, w: World): Outcome
  {
    match event
    case InitiatorHangup => To(Ended, t, HangupAll(w, t), [])
    case InitiatorJoined(_) => EndByCancel(t, w)
    case TransferredHangup => To(Ended, t, Abandon(w, t), [AbandonedNote])
    case Cancel => Stay(t, w)
    case _ => Unsupported(event, t, w)
  }

  function InNoneMovedCancelled(event: Event, t: Transfer, w: World): Outcome
  {
    match event
    case InitiatorHangup => To(Ended, t, w, [])
    case InitiatorJoined(_) => EndByCancel(t, w)
    case TransferredHangup => To(Ended, t, Abandon(w, t), [AbandonedNote])
    case TransferredJoined(_) => EndByCancel(t, w)
    case Cancel => Stay(t, w)
    case _ => Unsupported(event, t, w)
  }

  /** The initiator is out of a ringing transfer: the transferred party now waits for the recipient alone. */
  function BecomeBlind(t: Transfer, w: World): Outcome
  {
    var unheld := Unhold(w, t.transferredCall);
    if !unheld.ok then To(Ended, t, HangupAll(w, t), [])
    else To(BlindTransferred, t.(flow := Blind), Ring(unheld.w, t.transferredCall).w, [CompletedNote])
  }

  function InRingback(event: Event, t: Transfer, w: World): Outcome
  {
    match event
    case TransferredHangup => To(Abandoned, t, Abandon(w, t), [AbandonedNote])
    case InitiatorHangup => BecomeBlind(t, w)
    case RecipientHangup => EndByCancel(t, w)
    case Complete => BecomeBlind(t, Leave(w, t.initiatorCall))
    case Cancel => EndByCancel(t, w)
    case RecipientAnswer =>
      var unrung := Unring(w, t.initiatorCall);
      if !unrung.ok then Raise(t, w)
      else
        var first := Move(unrung.w, t, t.initiatorCall);
        var second := MoveRecipient(first.w, t);
        if !second.ok then Raise(t, second.w) else To(Answered, t, second.w, [])
    case _ => Unsupported(event, t, w)
  }

  function InBlindTransferred(event: Event, t: Transfer, w: World): Outcome
  {
    match event
    case TransferredHangup => To(Ended, t, HangupAll(Abandon(w, t), t), [AbandonedNote])
    case InitiatorHangup => Stay(t, w)
    case RecipientHangup => EndByCancel(t, w)
    case Cancel => EndByCancel(t, w)
    case RecipientAnswer =>
      var untagged := UntagRecipient(Untag(w, t.transferredCall), t);
      var unrung := Unring(untagged, t.transferredCall);
      if !unrung.ok then Raise(t, untagged)
      else
        var first := Move(unrung.w, t, t.transferredCall);
        var second := MoveRecipient(first.w, t);
        if !second.ok then Raise(t, second.w) else To(Ended, t, second.w, [AnsweredNote])
    case _ => Unsupported(event, t, w)
  }

  /** The transferred party joins the recipient: common to the initiator completing and leaving. */
  function Connect(w: World, t: Transfer): Tried
  {
    var moved := UnholdAndMove(w, t);
    if !moved.ok then moved else Tried(true, UntagRecipient(Untag(moved.w, t.transferredCall), t))
  }

  function InAnswered(event: Event, t: Transfer, w: World): Outcome
  {
    match event
    case TransferredHangup => To(Abandoned, t, Abandon(w, t), [AbandonedNote])
    case InitiatorHangup =>
      var connected := Connect(w, t);
      if !connected.ok then Raise(t, connected.w) else To(Ended, t, connected.w, [CompletedNote])
    case RecipientHangup => EndByCancel(t, w)
    case Complete =>
      var connected := Connect(w, t);
      if !connected.ok then Raise(t, connected.w)
      else To(Ended, t, Leave(connected.w, t.initiatorCall), [CompletedNote])
    case Cancel => EndByCancel(t, w)
    case _ => Unsupported(event, t, w)
  }

  function InAbandoned(event: Event, t: Transfer, w: World): Outcome
  {
    match event
    case TransferredHangup => Stay(t, w)
    case InitiatorHangup => To(Ended, t, HangupAll(w, t), [])
    case RecipientHangup => To(Ended, t, HangupAll(w, t), [])
    case RecipientAnswer =>
      var unrung := Unring(w, t.initiatorCall);
      if !unrung.ok then Raise(t, w)
      else
        var first := Move(unrung.w, t, t.initiatorCall);
        var second := MoveRecipient(first.w, t);
        if !second.ok then Raise(t, second.w) else Stay(t, second.w)
    case Cancel => EndByCancel(t, w)
    case _ => Unsupported(event, t, w)
  }

  function InEnded(event: Event, t: Transfer, w: World): Outcome
  {
    match event
    case InitiatorHangup => Stay(t, w)
    case RecipientHangup => Stay(t, w)
    case TransferredHangup => Stay(t, w)
    case _ => Unsupported(event, t, w)
  }

  /** What the state of the transfer does with the event. */
  function Fire(event: Event, t: Transfer, w: World): Outcome
  {
    match t.status
    case Ready => InReady(event, t, w)
    case NonStasis => InNonStasis(event, t, w)
    case NoneMoved => InNoneMoved(event, t, w)
    case InitiatorMoved => InInitiatorMoved(event, t, w)
    case TransferredMoved => InTransferredMoved(event, t, w)
    case NoneMovedCancelled => InNoneMovedCancelled(event, t, w)
    case InitiatorMovedCancelled => InInitiatorMovedCancelled(event, t, w)
    case TransferredMovedCancelled => InTransferredMovedCancelled(event, t, w)
    case Ringback => InRingback(event, t, w)
    case BlindTransferred => InBlindTransferred(event, t, w)
    case Answered => InAnswered(event, t, w)
    case Abandoned => InAbandoned(event, t, w)
    case Ended => InEnded(event, t, w)
    case Starting => Outcome(Missing, t, w, [])
    case Invalid => Outcome(Missing, t, w, [])
  }
}
