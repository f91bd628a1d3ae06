/** What every transition of a call transfer keeps: ranks and frames, and exactly when it raises. */
module TransferSafety {
  import opened Wrappers
  import opened TransferRecord
  import opened TransferStates

  // ---- Every transition descends ----

  function Rank(s: Status): nat
  {
    match s
    case Ready => 7
    case NonStasis => 7
    case NoneMoved => 6
    case InitiatorMoved => 5
    case TransferredMoved => 5
    case NoneMovedCancelled => 4
    case InitiatorMovedCancelled => 4
    case TransferredMovedCancelled => 4
    case Ringback => 4
    case Answered => 3
    case BlindTransferred => 2
    case Abandoned => 2
    case Ended => 0
    case Starting => 0
    case Invalid => 0
  }

  /** Everything but the status, the flow and the recipient is fixed when the transfer is created. */
  predicate SameTransfer(t: Transfer, t': Transfer)
  {
    t' == t.(status := t'.status, flow := t'.flow, recipientCall := t'.recipientCall)
  }

  /** What an outcome does to the record of the transfer and to its end notice. */
  predicate Descends(t: Transfer, o: Outcome)
  {
    && SameTransfer(t, o.t)
    && (o.t.status == t.status || (Rank(o.t.status) < Rank(t.status) && !o.t.status.Starting? && !o.t.status.Invalid?))
    && (t.flow.Blind? ==> o.t.flow.Blind?)
    && (EndedNote in o.notes <==> o.t.status.Ended? && !t.status.Ended?)
    && (forall i :: 0 <= i < |o.notes| - 1 ==> o.notes[i] != EndedNote)
    && (!o.verdict.Returned? ==> o.t == t && o.notes == [])
  }

  lemma ReadyDescends(event: Event, t: Transfer, w: World)
    requires t.status.Ready?
    ensures Descends(t, InReady(event, t, w))
  {
  }

  lemma NonStasisDescends(event: Event, t: Transfer, w: World)
    requires t.status.NonStasis?
    ensures Descends(t, InNonStasis(event, t, w))
  {
  }

  lemma NoneMovedDescends(event: Event, t: Transfer, w: World)
    requires t.status.NoneMoved?
    ensures Descends(t, InNoneMoved(event, t, w))
  {
  }

  lemma InitiatorMovedDescends(event: Event, t: Transfer, w: World)
    requires t.status.InitiatorMoved?
    ensures Descends(t, InInitiatorMoved(event, t, w))
  {
  }

  lemma TransferredMovedDescends(event: Event, t: Transfer, w: World)
    requires t.status.TransferredMoved?
    ensures Descends(t, InTransferredMoved(event, t, w))
  {
  }

  lemma NoneMovedCancelledDescends(event: Event, t: Transfer, w: World)
    requires t.status.NoneMovedCancelled?
    ensures Descends(t, InNoneMovedCancelled(event, t, w))
  {
  }

  lemma InitiatorMovedCancelledDescends(event: Event, t: Transfer, w: World)
    requires t.status.InitiatorMovedCancelled?
    ensures Descends(t, InInitiatorMovedCancelled(event, t, w))
  {
  }

  lemma TransferredMovedCancelledDescends(event: Event, t: Transfer, w: World)
    requires t.status.TransferredMovedCancelled?
    ensures Descends(t, InTransferredMovedCancelled(event, t, w))
  {
  }

  lemma RingbackDescends(event: Event, t: Transfer, w: World)
    requires t.status.Ringback?
    ensures Descends(t, InRingback(event, t, w))
  {
  }

  lemma BlindTransferredDescends(event: Event, t: Transfer, w: World)
    requires t.status.BlindTransferred?
    ensures Descends(t, InBlindTransferred(event, t, w))
  {
  }

  lemma AnsweredDescends(event: Event, t: Transfer, w: World)
    requires t.status.Answered?
    ensures Descends(t, InAnswered(event, t, w))
  {
  }

  lemma AbandonedDescends(event: Event, t: Transfer, w: World)
    requires t.status.Abandoned?
    ensures Descends(t, InAbandoned(event, t, w))
  {
  }

  lemma EndedDescends(event: Event, t: Transfer, w: World)
    requires t.status.Ended?
    ensures Descends(t, InEnded(event, t, w))
  {
  }

  /** A transition that returns keeps the status or lowers its rank, never turns a blind transfer back into an
      attended one, and notifies the end exactly when it reaches it; one that raises changes nothing. */
  lemma TransitionDescends(event: Event, t: Transfer, w: World)
    ensures Descends(t, Fire(event, t, w))
  {
    match t.status
    case Ready => ReadyDescends(event, t, w);
    case NonStasis => NonStasisDescends(event, t, w);
    case NoneMoved => NoneMovedDescends(event, t, w);
    case InitiatorMoved => InitiatorMovedDescends(event, t, w);
    case TransferredMoved => TransferredMovedDescends(event, t, w);
    case NoneMovedCancelled => NoneMovedCancelledDescends(event, t, w);
    case InitiatorMovedCancelled => InitiatorMovedCancelledDescends(event, t, w);
    case TransferredMovedCancelled => TransferredMovedCancelledDescends(event, t, w);
    case Ringback => RingbackDescends(event, t, w);
    case BlindTransferred => BlindTransferredDescends(event, t, w);
    case Answered => AnsweredDescends(event, t, w);
    case Abandoned => AbandonedDescends(event, t, w);
    case Ended => EndedDescends(event, t, w);
    case Starting =>
    case Invalid =>
  }

  // ---- Exactly when a transition raises ----

  predicate RecipientLives(t: Transfer, w: World)
  {
    t.recipientCall.Some? && t.recipientCall.value != "" && t.recipientCall.value in w.live
  }

  predicate BothLive(t: Transfer, w: World)
  {
    t.transferredCall in w.live && t.initiatorCall in w.live
  }

  /** The events that a state accepts, and who must be there for it. */
  predicate Accepts(event: Event, t: Transfer, w: World)
  {
    match t.status
    case Ready => event.Start? && event.hasUser && BothLive(t, w) && event.recipient.Some?
    case NonStasis => event.Start? && BothLive(t, w) && event.redirected
    case NoneMoved => !event.Start? && !event.RecipientHangup? && !event.RecipientAnswer?
    case InitiatorMoved =>
      || event.Complete? || event.InitiatorHangup? || event.TransferredHangup? || event.Cancel?
      || (event.TransferredJoined? && t.initiatorCall in w.live && event.recipient.Some?)
    case TransferredMoved =>
      || event.Complete? || event.InitiatorHangup? || event.TransferredHangup? || event.Cancel?
      || (event.InitiatorJoined? && t.initiatorCall in w.live && event.recipient.Some?)
    case InitiatorMovedCancelled =>
      event.InitiatorHangup? || event.TransferredHangup? || event.Cancel? || event.TransferredJoined?
    case TransferredMovedCancelled =>
      event.InitiatorHangup? || event.TransferredHangup? || event.Cancel? || event.InitiatorJoined?
    case NoneMovedCancelled =>
      event.InitiatorHangup? || event.TransferredHangup? || event.Cancel? || event.InitiatorJoined?
          || event.TransferredJoined?
    case Ringback =>
      || event.TransferredHangup? || event.InitiatorHangup? || event.RecipientHangup? || event.Complete?
      || event.Cancel?
      || (event.RecipientAnswer? && t.initiatorCall in w.live && RecipientLives(t, w))
    case BlindTransferred =>
      || event.TransferredHangup? || event.InitiatorHangup? || event.RecipientHangup? || event.Cancel?
      || (event.RecipientAnswer? && t.transferredCall in w.live && RecipientLives(t, w))
    case Answered =>
      || event.TransferredHangup? || event.RecipientHangup? || event.Cancel?
      || ((event.InitiatorHangup? || event.Complete?) && t.transferredCall in w.live)
    case Abandoned =>
      || event.TransferredHangup? || event.InitiatorHangup? || event.RecipientHangup? || event.Cancel?
      || (event.RecipientAnswer? && t.initiatorCall in w.live && RecipientLives(t, w))
    case Ended => event.TransferredHangup? || event.InitiatorHangup? || event.RecipientHangup?
    case Starting => false
    case Invalid => false
  }

  lemma StartIsAccepted(event: Event, t: Transfer, w: World)
    requires t.status.Ready?
    ensures InReady(event, t, w).verdict.Returned? <==> Accepts(event, t, w)
  {
    if event.Start? && event.hasUser {
      var tagged := TagBoth(w, t);
      assert LeaveOldBridge(tagged.w, t).live == w.live;
    }
  }

  /** For every state, event and world: the transition returns exactly when the table above accepts it. */
  lemma ReturnsExactlyWhenAccepted(event: Event, t: Transfer, w: World)
    ensures Fire(event, t, w).verdict.Returned? <==> Accepts(event, t, w)
  {
    if t.status.Ready? {
      StartIsAccepted(event, t, w);
    }
  }

  // ---- Frames ----

  predicate SameFor(c: string, w: World, w': World)
  {
    && (c in w'.live <==> c in w.live)
    && Get(w'.at, c) == Get(w.at, c)
    && (c in w'.held <==> c in w.held)
    && (c in w'.ringing <==> c in w.ringing)
    && (c in w'.tagged <==> c in w.tagged)
  }

  /** The channel an event can create. */
  function Created(event: Event): Option<string>
  {
    match event
    case TransferredJoined(r) => r
    case InitiatorJoined(r) => r
    case Start(_, _, r) => r
    case _ => None
  }

  lemma LeavesTouchOnlyTheirs(t: Transfer, w: World, c: string)
    requires !t.Involves(c)
    ensures SameFor(c, w, Hangup(w, t.transferredCall)) && SameFor(c, w, Hangup(w, t.initiatorCall))
        && SameFor(c, w, HangupRecipient(w, t))
  {
  }

  lemma HangupsTouchOnlyTheirs(t: Transfer, w: World, c: string)
    requires !t.Involves(c)
    ensures SameFor(c, w, HangupAll(w, t)) && SameFor(c, w, Abandon(w, t))
    ensures SameFor(c, w, HangupAll(Abandon(w, t), t)) && SameFor(c, w, HangupRecipient(w, t))
  {
    HangupAllTouchesOnlyTheirs(t, w, c);
    LeavesTouchOnlyTheirs(t, w, c);
    HangupAllTouchesOnlyTheirs(t, Abandon(w, t), c);
  }

  lemma HangupAllTouchesOnlyTheirs(t: Transfer, w: World, c: string)
    requires !t.Involves(c)
    ensures SameFor(c, w, HangupAll(w, t))
  {
    LeavesTouchOnlyTheirs(t, w, c);
    var first := HangupRecipient(w, t);
    LeavesTouchOnlyTheirs(t, first, c);
    LeavesTouchOnlyTheirs(t, Hangup(first, t.initiatorCall), c);
  }

  lemma MovesTouchOnlyTheirs(t: Transfer, w: World, moved: string, c: string)
    requires !t.Involves(c) && t.Involves(moved)
    ensures SameFor(c, w, Move(w, t, moved).w) && SameFor(c, w, MoveRecipient(w, t).w)
        && SameFor(c, w, UnholdAndMove(w, t).w)
    ensures SameFor(c, w, Unring(w, moved).w) && SameFor(c, w, Untag(w, moved))
  {
  }

  lemma RebridgeTouchesOnlyTheirs(t: Transfer, w: World, c: string)
    requires !t.Involves(c)
    ensures SameFor(c, w, Rebridge(w, t).w)
  {
    var unrung := Unring(w, t.initiatorCall).w;
    MovesTouchOnlyTheirs(t, w, t.initiatorCall, c);
    MovesTouchOnlyTheirs(t, unrung, t.transferredCall, c);
    MovesTouchOnlyTheirs(t, UnholdAndMove(unrung, t).w, t.initiatorCall, c);
  }

  lemma CancelTouchesOnlyTheirs(t: Transfer, w: World, c: string)
    requires !t.Involves(c)
    ensures SameFor(c, w, CancelTransfer(w, t))
  {
    var untagged := Untag(Untag(w, t.transferredCall), t.initiatorCall);
    var left := HangupRecipient(untagged, t);
    HangupsTouchOnlyTheirs(t, untagged, c);
    RebridgeTouchesOnlyTheirs(t, left, c);
    HangupsTouchOnlyTheirs(t, Rebridge(left, t).w, c);
  }

  lemma AnswersTouchOnlyTheirs(t: Transfer, w: World, first: string, c: string)
    requires !t.Involves(c) && (first == t.transferredCall || first == t.initiatorCall)
    ensures var unrung := Unring(w, first).w;
            && SameFor(c, w, unrung)
            && SameFor(c, w, MoveRecipient(Move(unrung, t, first).w, t).w)
  {
    MovesTouchOnlyTheirs(t, w, first, c);
    MovesTouchOnlyTheirs(t, Unring(w, first).w, first, c);
    MovesTouchOnlyTheirs(t, Move(Unring(w, first).w, t, first).w, first, c);
  }

  lemma StartTouchesOnlyTheirs(t: Transfer, w: World, recipient: Option<string>, c: string)
    requires !t.Involves(c) && recipient != Some(c)
    ensures SameFor(c, w, StartAttended(t, w, recipient).w) && SameFor(c, w, Joined(t, w, recipient).w)
    ensures SameFor(c, w, TagBoth(w, t).w)
  {
  }

  lemma LeavingTouchesOnlyTheirs(t: Transfer, w: World, c: string)
    requires !t.Involves(c)
    ensures SameFor(c, w, LeaveOldBridge(w, t))
  {
    if t.initiatorCall in w.at && c in w.at && w.at[c] == w.at[t.initiatorCall] {
      assert c in w.Members(w.at[t.initiatorCall]);
    }
  }

  lemma ReadyTouchesOnlyTheirs(event: Event, t: Transfer, w: World, c: string)
    requires !t.Involves(c) && Created(event) != Some(c) && t.status.Ready?
    ensures SameFor(c, w, InReady(event, t, w).w)
  {
    if event.Start? {
      var tagged := TagBoth(w, t).w;
      StartTouchesOnlyTheirs(t, w, event.recipient, c);
      LeavingTouchesOnlyTheirs(t, tagged, c);
      StartTouchesOnlyTheirs(t, LeaveOldBridge(tagged, t), event.recipient, c);
    }
  }

  lemma NonStasisTouchesOnlyTheirs(event: Event, t: Transfer, w: World, c: string)
    requires !t.Involves(c) && t.status.NonStasis?
    ensures SameFor(c, w, InNonStasis(event, t, w).w)
  {
    StartTouchesOnlyTheirs(t, w, None, c);
  }

  lemma MovingTouchesOnlyTheirs(event: Event, t: Transfer, w: World, c: string)
    requires !t.Involves(c) && Created(event) != Some(c)
    requires t.status.NoneMoved? || t.status.InitiatorMoved? || t.status.TransferredMoved?
    ensures SameFor(c, w, Fire(event, t, w).w)
  {
    HangupsTouchOnlyTheirs(t, w, c);
    if event.TransferredJoined? || event.InitiatorJoined? {
      StartTouchesOnlyTheirs(t, w, event.recipient, c);
    }
  }

  lemma CancelledTouchesOnlyTheirs(event: Event, t: Transfer, w: World, c: string)
    requires !t.Involves(c)
    requires t.status.NoneMovedCancelled? || t.status.InitiatorMovedCancelled? || t.status.TransferredMovedCancelled?
    ensures SameFor(c, w, Fire(event, t, w).w)
  {
    HangupsTouchOnlyTheirs(t, w, c);
    CancelTouchesOnlyTheirs(t, w, c);
  }

  lemma BlindTouchesOnlyTheirs(t: Transfer, w: World, c: string)
    requires !t.Involves(c)
    ensures SameFor(c, w, BecomeBlind(t, w).w)
  {
    HangupsTouchOnlyTheirs(t, w, c);
  }

  lemma RingbackTouchesOnlyTheirs(event: Event, t: Transfer, w: World, c: string)
    requires !t.Involves(c) && t.status.Ringback?
    ensures SameFor(c, w, InRingback(event, t, w).w)
  {
    match event
    case TransferredHangup =>
    case InitiatorHangup => BlindTouchesOnlyTheirs(t, w, c);
    case RecipientHangup => CancelTouchesOnlyTheirs(t, w, c);
    case Complete => BlindTouchesOnlyTheirs(t, Leave(w, t.initiatorCall), c);
    case Cancel => CancelTouchesOnlyTheirs(t, w, c);
    case RecipientAnswer => AnswersTouchOnlyTheirs(t, w, t.initiatorCall, c);
    case TransferredJoined(_) =>
    case InitiatorJoined(_) =>
    case Start(_, _, _) =>
  }

  lemma AbandonedTouchesOnlyTheirs(event: Event, t: Transfer, w: World, c: string)
    requires !t.Involves(c) && t.status.Abandoned?
    ensures SameFor(c, w, InAbandoned(event, t, w).w)
  {
    HangupsTouchOnlyTheirs(t, w, c);
    CancelTouchesOnlyTheirs(t, w, c);
    AnswersTouchOnlyTheirs(t, w, t.initiatorCall, c);
  }

  lemma BlindTransferredTouchesOnlyTheirs(event: Event, t: Transfer, w: World, c: string)
    requires !t.Involves(c) && t.status.BlindTransferred?
    ensures SameFor(c, w, InBlindTransferred(event, t, w).w)
  {
    HangupsTouchOnlyTheirs(t, w, c);
    CancelTouchesOnlyTheirs(t, w, c);
    AnswersTouchOnlyTheirs(t, UntagRecipient(Untag(w, t.transferredCall), t), t.transferredCall, c);
  }

  lemma AnsweredTouchesOnlyTheirs(event: Event, t: Transfer, w: World, c: string)
    requires !t.Involves(c) && t.status.Answered?
    ensures SameFor(c, w, InAnswered(event, t, w).w)
  {
    CancelTouchesOnlyTheirs(t, w, c);
    MovesTouchOnlyTheirs(t, w, t.transferredCall, c);
  }

  /** No transition changes anything for a channel that has no role in the transfer. */
  lemma TransitionTouchesOnlyParticipants(event: Event, t: Transfer, w: World, c: string)
    requires !t.Involves(c) && Created(event) != Some(c)
    ensures SameFor(c, w, Fire(event, t, w).w)
  {
    if t.status.Ready? {
      ReadyTouchesOnlyTheirs(event, t, w, c);
    } else if t.status.NonStasis? {
      NonStasisTouchesOnlyTheirs(event, t, w, c);
    } else if t.status.NoneMoved? || t.status.InitiatorMoved? || t.status.TransferredMoved? {
      MovingTouchesOnlyTheirs(event, t, w, c);
    } else if t.status.NoneMovedCancelled? || t.status.InitiatorMovedCancelled? || t.status.TransferredMovedCancelled? {
      CancelledTouchesOnlyTheirs(event, t, w, c);
    } else if t.status.Ringback? {
      RingbackTouchesOnlyTheirs(event, t, w, c);
    } else if t.status.Abandoned? {
      AbandonedTouchesOnlyTheirs(event, t, w, c);
    } else if t.status.Answered? {
      AnsweredTouchesOnlyTheirs(event, t, w, c);
    } else if t.status.BlindTransferred? {
      BlindTransferredTouchesOnlyTheirs(event, t, w, c);
    }
  }
}
