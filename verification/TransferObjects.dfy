/** The objects behind the transfer handlers: the ARI client, the lock set, the stored records, and the state
    object whose transitions change all of them in place.  Each method is proved to do what the model says. */
module TransferObjects {
  import opened Wrappers
  import opened TransferRecord
  import opened TransferStates

  /** What Asterisk knows. */
  class Ari {
    var live: set<string>
    var at: map<string, string>
    var held: set<string>
    var ringing: set<string>
    var tagged: set<string>
    var existing: set<string>
    var marks: map<string, string>

    ghost function View(): World
      reads this
    {
      World(live, at, held, ringing, tagged, Bridges(existing, marks))
    }

    constructor ()
      ensures View() == World({}, map[], {}, {}, {}, Bridges({}, map[]))
    {
      live, at, held, ringing, tagged, existing, marks := {}, map[], {}, {}, {}, {}, map[];
    }

    method Forget(gone: set<string>)
      modifies this
      ensures View() == old(View()).(live := old(live) - gone, at := old(at) - gone, held := old(held) - gone,
                                     ringing := old(ringing) - gone, tagged := old(tagged) - gone)
    {
      live, at, held, ringing, tagged := live - gone, at - gone, held - gone, ringing - gone, tagged - gone;
    }

    method HangupChannel(c: string)
      modifies this
      ensures View() == Leave(old(View()), c)
    {
      Forget({c});
    }

    method HoldChannel(c: string)
      modifies this
      ensures View() == Hold(old(View()), c)
    {
      if c in live {
        held := held + {c};
      }
    }

    method UnholdChannel(c: string) returns (ok: bool)
      modifies this
      ensures Tried(ok, View()) == Unhold(old(View()), c)
    {
      if c !in live {
        return false;
      }
      held := held - {c};
      return true;
    }

    method RingChannel(c: string) returns (ok: bool)
      modifies this
      ensures Tried(ok, View()) == Ring(old(View()), c)
    {
      if c !in live {
        return false;
      }
      ringing := ringing + {c};
      return true;
    }

    method UnringChannel(c: string) returns (ok: bool)
      modifies this
      ensures Tried(ok, View()) == Unring(old(View()), c)
    {
      if c !in live {
        return false;
      }
      ringing := ringing - {c};
      return true;
    }

    method SetTransferVariables(c: string) returns (ok: bool)
      modifies this
      ensures Tried(ok, View()) == Tag(old(View()), c)
    {
      if c !in live {
        return false;
      }
      tagged := tagged + {c};
      return true;
    }

    method UnsetTransferVariables(c: string)
      modifies this
      ensures View() == Untag(old(View()), c)
    {
      tagged := tagged - {c};
    }

    method AddChannel(t: Transfer, c: string) returns (ok: bool)
      modifies this
      ensures Tried(ok, View()) == Move(old(View()), t, c)
    {
      if t.bridgeId !in existing {
        existing := existing + {t.bridgeId};
        marks := marks[t.bridgeId := t.id];
      }
      if c !in live {
        return false;
      }
      at := at[c := t.bridgeId];
      return true;
    }

    method Originate(initiator: string, recipient: Option<string>) returns (ok: bool)
      modifies this
      ensures ok <==> initiator in old(live) && recipient.Some?
      ensures View() == if ok then old(View()).(live := old(live) + {recipient.value},
          tagged := old(tagged) + {recipient.value})
                        else old(View())
    {
      if initiator !in live || recipient.None? {
        return false;
      }
      live, tagged := live + {recipient.value}, tagged + {recipient.value};
      return true;
    }

    method DestroyBridgeOf(bridge: string)
      modifies this
      ensures View() == DestroyBridge(old(View()), bridge)
    {
      at := map c | c in at && at[c] != bridge :: at[c];
      existing, marks := existing - {bridge}, marks - {bridge};
    }

    method DestroyOldBridge(t: Transfer)
      modifies this
      ensures View() == LeaveOldBridge(old(View()), t)
    {
      if t.initiatorCall in at {
        var bridge := at[t.initiatorCall];
        if (set c | c in at && at[c] == bridge) == {t.transferredCall, t.initiatorCall} {
          DestroyBridgeOf(bridge);
        }
      }
    }
  }

  /** `TransferLock`. */
  class TransferLock {
    var lockedCalls: set<string>

    constructor ()
      ensures lockedCalls == {}
    {
      lockedCalls := {};
    }

    method Acquire(call: string) returns (acquired: bool)
      modifies this
      ensures acquired <==> call !in old(lockedCalls)
      ensures lockedCalls == old(lockedCalls) + {call}
    {
      if call in lockedCalls {
        return false;
      }
      lockedCalls := lockedCalls + {call};
      return true;
    }

    method Release(call: string)
      modifies this
      ensures lockedCalls == old(lockedCalls) - {call}
    {
      lockedCalls := lockedCalls - {call};
    }
  }

  /** `TransferState`: one transfer, and what every state class can do with it. */
  class TransferState {
    const ari: Ari
    const lock: TransferLock
    var transfer: Transfer
    var notes: seq<Note>

    constructor (ari: Ari, lock: TransferLock, transfer: Transfer)
      ensures this.ari == ari && this.lock == lock && this.transfer == transfer && notes == []
    {
      this.ari, this.lock, this.transfer, this.notes := ari, lock, transfer, [];
    }

    /** What the method left behind is this outcome; the lock is released on entering the end. */
    ghost predicate Did(o: Outcome, verdict: Verdict, before: seq<Note>, locked: set<string>)
      reads this, ari, lock
    {
      && verdict == o.verdict && transfer == o.t && ari.View() == o.w && notes == before + o.notes
      && lock.lockedCalls == if EndedNote in o.notes then locked - {o.t.initiatorCall} else locked
    }

    // ---- The shared helpers ----

    method Notify(note: Note)
      modifies this`notes
      ensures notes == old(notes) + [note]
    {
      notes := notes + [note];
    }

    /** `from_state`. */
    method Become(status: Status)
      modifies this`transfer, this`notes, lock
      ensures transfer == old(transfer).(status := status)
      ensures notes == old(notes) + To(status, old(transfer), ari.View(), []).notes
      ensures lock.lockedCalls == if status.Ended? then old(lock.lockedCalls) - {old(transfer).initiatorCall}
          else old(lock.lockedCalls)
    {
      transfer := transfer.(status := status);
      if status.Ended? {
        Notify(EndedNote);
        lock.Release(transfer.initiatorCall);
      } else if status.Answered? {
        Notify(AnsweredNote);
      }
    }

    method HangupIfAny(c: string)
      modifies ari
      ensures ari.View() == Hangup(old(ari.View()), c)
    {
      if c != "" {
        ari.HangupChannel(c);
      }
    }

    method HangupTheRecipient()
      modifies ari
      ensures ari.View() == HangupRecipient(old(ari.View()), transfer)
    {
      if transfer.recipientCall.Some? {
        HangupIfAny(transfer.recipientCall.value);
      }
    }

    method HangupAllParticipants()
      modifies ari
      ensures ari.View() == HangupAll(old(ari.View()), transfer)
    {
      HangupTheRecipient();
      HangupIfAny(transfer.initiatorCall);
      HangupIfAny(transfer.transferredCall);
    }

    method AbandonTransfer()
      modifies ari, this`notes
      ensures ari.View() == Abandon(old(ari.View()), transfer) && notes == old(notes) + [AbandonedNote]
    {
      HangupIfAny(transfer.transferredCall);
      Notify(AbandonedNote);
    }

    method UnholdAndMoveTransferred() returns (ok: bool)
      modifies ari
      ensures Tried(ok, ari.View()) == UnholdAndMove(old(ari.View()), transfer)
    {
      ok := ari.UnholdChannel(transfer.transferredCall);
      if ok {
        ok := ari.AddChannel(transfer, transfer.transferredCall);
      }
    }

    method RebridgeChannels() returns (ok: bool)
      modifies ari
      ensures Tried(ok, ari.View()) == Rebridge(old(ari.View()), transfer)
    {
      ok := ari.UnringChannel(transfer.initiatorCall);
      if !ok {
        return;
      }
      ok := UnholdAndMoveTransferred();
      if !ok {
        return;
      }
      ok := ari.AddChannel(transfer, transfer.initiatorCall);
    }

    method DoCancel()
      modifies ari, this`notes
      ensures ari.View() == CancelTransfer(old(ari.View()), transfer) && notes == old(notes) + [CancelledNote]
    {
      ari.UnsetTransferVariables(transfer.transferredCall);
      ari.UnsetTransferVariables(transfer.initiatorCall);
      HangupTheRecipient();
      var ok := RebridgeChannels();
      if !ok {
        HangupAllParticipants();
      }
      Notify(CancelledNote);
    }

    method UnsetRecipientVariables()
      modifies ari
      ensures ari.View() == UntagRecipient(old(ari.View()), transfer)
    {
      if transfer.recipientCall.Some? {
        ari.UnsetTransferVariables(transfer.recipientCall.value);
      }
    }

    method MoveTheRecipient() returns (ok: bool)
      modifies ari
      ensures Tried(ok, ari.View()) == MoveRecipient(old(ari.View()), transfer)
    {
      if transfer.recipientCall.None? || transfer.recipientCall.value == "" {
        return false;
      }
      ok := ari.AddChannel(transfer, transfer.recipientCall.value);
    }

    method CancelAndEnd() returns (v: Verdict)
      modifies this, ari, lock
      ensures Did(EndByCancel(old(transfer), old(ari.View())), v, old(notes), old(lock.lockedCalls))
    {
      DoCancel();
      Become(Ended);
      v := Returned;
    }

    method TurnBlind() returns (v: Verdict)
      modifies this
      ensures Did(GoBlind(old(transfer), ari.View()), v, old(notes), lock.lockedCalls)
    {
      transfer := transfer.(flow := Blind);
      v := Returned;
    }

    method DoStartAttended(recipient: Option<string>) returns (v: Verdict)
      modifies this, ari, lock
      ensures Did(StartAttended(old(transfer), old(ari.View()), recipient), v, old(notes), old(lock.lockedCalls))
    {
      ari.HoldChannel(transfer.transferredCall);
      var rung := ari.RingChannel(transfer.initiatorCall);
      var ok := ari.Originate(transfer.initiatorCall, recipient);
      if !ok {
        return Raised;
      }
      transfer := transfer.(recipientCall := recipient);
      Notify(Updated);
      Become(Ringback);
      v := Returned;
    }

    method StartJoined(recipient: Option<string>) returns (v: Verdict)
      modifies this, ari, lock
      ensures Did(Joined(old(transfer), old(ari.View()), recipient), v, old(notes), old(lock.lockedCalls))
    {
      if transfer.initiatorCall !in ari.live {
        return Raised;
      }
      v := DoStartAttended(recipient);
    }

    method SetBothVariables() returns (ok: bool)
      modifies ari
      ensures Tried(ok, ari.View()) == TagBoth(old(ari.View()), transfer)
    {
      ok := ari.SetTransferVariables(transfer.transferredCall);
      if ok {
        ok := ari.SetTransferVariables(transfer.initiatorCall);
      }
    }

    // ---- The states, each with the events it knows ----

    method OnReady(event: Event) returns (v: Verdict)
      modifies this, ari, lock
      ensures Did(InReady(event, old(transfer), old(ari.View())), v, old(notes), old(lock.lockedCalls))
    {
      if !event.Start? {
        return if event.TransferredJoined? || event.InitiatorJoined? then Missing else Raised;
      }
      if !event.hasUser {
        return Raised;
      }
      var ok := SetBothVariables();
      if !ok {
        return Raised;
      }
      ari.DestroyOldBridge(transfer);
      v := DoStartAttended(event.recipient);
    }

    method OnNonStasis(event: Event) returns (v: Verdict)
      modifies this, ari, lock
      ensures Did(InNonStasis(event, old(transfer), old(ari.View())), v, old(notes), old(lock.lockedCalls))
    {
      if !event.Start? {
        return if event.TransferredJoined? || event.InitiatorJoined? then Missing else Raised;
      }
      var ok := SetBothVariables();
      if !ok || !event.redirected {
        return Raised;
      }
      Become(NoneMoved);
      v := Returned;
    }

    method OnNoneMoved(event: Event) returns (v: Verdict)
      modifies this, ari, lock
      ensures Did(InNoneMoved(event, old(transfer), old(ari.View())), v, old(notes), old(lock.lockedCalls))
    {
      v := Returned;
      match event {
        case Complete => v := TurnBlind();
        case InitiatorHangup => v := TurnBlind();
        case InitiatorJoined(_) => Become(InitiatorMoved);
        case TransferredHangup => AbandonTransfer(); Become(Ended);
        case TransferredJoined(_) => Become(TransferredMoved);
        case Cancel => Become(NoneMovedCancelled);
        case _ => v := Raised;
      }
    }

    method OnInitiatorMoved(event: Event) returns (v: Verdict)
      modifies this, ari, lock
      ensures Did(InInitiatorMoved(event, old(transfer), old(ari.View())), v, old(notes), old(lock.lockedCalls))
    {
      v := Returned;
      match event {
        case Complete => v := TurnBlind();
        case InitiatorHangup => v := TurnBlind();
        case TransferredJoined(recipient) => v := StartJoined(recipient);
        case TransferredHangup => AbandonTransfer(); HangupAllParticipants(); Become(Ended);
        case Cancel => Become(InitiatorMovedCancelled);
        case InitiatorJoined(_) => v := Missing;
        case _ => v := Raised;
      }
    }

    method OnTransferredMoved(event: Event) returns (v: Verdict)
      modifies this, ari, lock
      ensures Did(InTransferredMoved(event, old(transfer), old(ari.View())), v, old(notes), old(lock.lockedCalls))
    {
      v := Returned;
      match event {
        case Complete => v := TurnBlind();
        case InitiatorHangup => v := TurnBlind();
        case InitiatorJoined(recipient) => v := StartJoined(recipient);
        case TransferredHangup => AbandonTransfer(); Become(Ended);
        case Cancel => Become(TransferredMovedCancelled);
        case TransferredJoined(_) => v := Missing;
        case _ => v := Raised;
      }
    }

    method OnInitiatorMovedCancelled(event: Event) returns (v: Verdict)
      modifies this, ari, lock
      ensures Did(InInitiatorMovedCancelled(event, old(transfer), old(ari.View())), v, old(notes),
          old(lock.lockedCalls))
    {
      v := Returned;
      match event {
        case InitiatorHangup => Become(Ended);
        case TransferredJoined(_) => v := CancelAndEnd();
        case TransferredHangup => AbandonTransfer(); HangupAllParticipants(); Become(Ended);
        case Cancel =>
        case InitiatorJoined(_) => v := Missing;
        case _ => v := Raised;
      }
    }

    method OnTransferredMovedCancelled(event: Event) returns (v: Verdict)
      modifies this, ari, lock
      ensures Did(InTransferredMovedCancelled(event, old(transfer), old(ari.View())), v, old(notes),
          old(lock.lockedCalls))
    {
      v := Returned;
      match event {
        case InitiatorHangup => HangupAllParticipants(); Become(Ended);
        case InitiatorJoined(_) => v := CancelAndEnd();
        case TransferredHangup => AbandonTransfer(); Become(Ended);
        case Cancel =>
        case TransferredJoined(_) => v := Missing;
        case _ => v := Raised;
      }
    }

    method OnNoneMovedCancelled(event: Event) returns (v: Verdict)
      modifies this, ari, lock
      ensures Did(InNoneMovedCancelled(event, old(transfer), old(ari.View())), v, old(notes), old(lock.lockedCalls))
    {
      v := Returned;
      match event {
        case InitiatorHangup => Become(Ended);
        case InitiatorJoined(_) => v := CancelAndEnd();
        case TransferredHangup => AbandonTransfer(); Become(Ended);
        case TransferredJoined(_) => v := CancelAndEnd();
        case Cancel =>
        case _ => v := Raised;
      }
    }

    method GoOnBlind() returns (v: Verdict)
      modifies this, ari, lock
      ensures Did(BecomeBlind(old(transfer), old(ari.View())), v, old(notes), old(lock.lockedCalls))
    {
      var ok := ari.UnholdChannel(transfer.transferredCall);
      if ok {
        ok := ari.RingChannel(transfer.transferredCall);
      }
      if !ok {
        HangupAllParticipants();
        Become(Ended);
      } else {
        transfer := transfer.(flow := Blind);
        Notify(CompletedNote);
        Become(BlindTransferred);
      }
      v := Returned;
    }

    /** The recipient answers: `first` and the recipient are put in the transfer bridge. */
    method BridgeWithRecipient(first: string) returns (ok: bool)
      modifies ari
      ensures var unrung := Unring(old(ari.View()), first);
              var moved := MoveRecipient(Move(unrung.w, transfer, first).w, transfer);
              Tried(ok, ari.View()) == if unrung.ok then moved else Tried(false, old(ari.View()))
    {
      ok := ari.UnringChannel(first);
      if !ok {
        return;
      }
      ok := ari.AddChannel(transfer, first);
      ok := MoveTheRecipient();
    }

    method OnRingback(event: Event) returns (v: Verdict)
      modifies this, ari, lock
      ensures Did(InRingback(event, old(transfer), old(ari.View())), v, old(notes), old(lock.lockedCalls))
    {
      v := Returned;
      match event {
        case TransferredHangup => AbandonTransfer(); Become(Abandoned);
        case InitiatorHangup => v := GoOnBlind();
        case RecipientHangup => v := CancelAndEnd();
        case Complete => ari.HangupChannel(transfer.initiatorCall); v := GoOnBlind();
        case Cancel => v := CancelAndEnd();
        case RecipientAnswer =>
          var ok := BridgeWithRecipient(transfer.initiatorCall);
          if ok {
            Become(Answered);
          } else {
            v := Raised;
          }
        case TransferredJoined(_) => v := Missing;
        case InitiatorJoined(_) => v := Missing;
        case Start(_, _, _) => v := Raised;
      }
    }

    method OnBlindTransferred(event: Event) returns (v: Verdict)
      modifies this, ari, lock
      ensures Did(InBlindTransferred(event, old(transfer), old(ari.View())), v, old(notes), old(lock.lockedCalls))
    {
      v := Returned;
      match event {
        case TransferredHangup => AbandonTransfer(); HangupAllParticipants(); Become(Ended);
        case InitiatorHangup =>
        case RecipientHangup => v := CancelAndEnd();
        case Cancel => v := CancelAndEnd();
        case RecipientAnswer =>
          ari.UnsetTransferVariables(transfer.transferredCall);
          UnsetRecipientVariables();
          var ok := BridgeWithRecipient(transfer.transferredCall);
          if ok {
            Notify(AnsweredNote);
            Become(Ended);
          } else {
            v := Raised;
          }
        case TransferredJoined(_) => v := Missing;
        case InitiatorJoined(_) => v := Missing;
        case Complete => v := Raised;
        case Start(_, _, _) => v := Raised;
      }
    }

    method ConnectTransferred() returns (ok: bool)
      modifies ari
      ensures Tried(ok, ari.View()) == Connect(old(ari.View()), transfer)
    {
      ok := UnholdAndMoveTransferred();
      if ok {
        ari.UnsetTransferVariables(transfer.transferredCall);
        UnsetRecipientVariables();
      }
    }

    method OnAnswered(event: Event) returns (v: Verdict)
      modifies this, ari, lock
      ensures Did(InAnswered(event, old(transfer), old(ari.View())), v, old(notes), old(lock.lockedCalls))
    {
      v := Returned;
      match event {
        case TransferredHangup => AbandonTransfer(); Become(Abandoned);
        case InitiatorHangup =>
          var ok := ConnectTransferred();
          if ok {
            Notify(CompletedNote);
            Become(Ended);
          } else {
            v := Raised;
          }
        case RecipientHangup => v := CancelAndEnd();
        case Complete =>
          var ok := ConnectTransferred();
          if ok {
            ari.HangupChannel(transfer.initiatorCall);
            Notify(CompletedNote);
            Become(Ended);
          } else {
            v := Raised;
          }
        case Cancel => v := CancelAndEnd();
        case TransferredJoined(_) => v := Missing;
        case InitiatorJoined(_) => v := Missing;
        case RecipientAnswer => v := Raised;
        case Start(_, _, _) => v := Raised;
      }
    }

    method OnAbandoned(event: Event) returns (v: Verdict)
      modifies this, ari, lock
      ensures Did(InAbandoned(event, old(transfer), old(ari.View())), v, old(notes), old(lock.lockedCalls))
    {
      v := Returned;
      match event {
        case TransferredHangup =>
        case InitiatorHangup => HangupAllParticipants(); Become(Ended);
        case RecipientHangup => HangupAllParticipants(); Become(Ended);
        case RecipientAnswer =>
          var ok := BridgeWithRecipient(transfer.initiatorCall);
          v := if ok then Returned else Raised;
        case Cancel => v := CancelAndEnd();
        case TransferredJoined(_) => v := Missing;
        case InitiatorJoined(_) => v := Missing;
        case Complete => v := Raised;
        case Start(_, _, _) => v := Raised;
      }
    }

    method OnEnded(event: Event) returns (v: Verdict)
      ensures Did(InEnded(event, transfer, ari.View()), v, notes, lock.lockedCalls)
    {
      match event {
        case InitiatorHangup => v := Returned;
        case RecipientHangup => v := Returned;
        case TransferredHangup => v := Returned;
        case TransferredJoined(_) => v := Missing;
        case InitiatorJoined(_) => v := Missing;
        case _ => v := Raised;
      }
    }

    /** The state class for the status, with the event. */
    method Dispatch(event: Event) returns (v: Verdict)
      modifies this, ari, lock
      ensures Did(Fire(event, old(transfer), old(ari.View())), v, old(notes), old(lock.lockedCalls))
    {
      match transfer.status {
        case Ready => v := OnReady(event);
        case NonStasis => v := OnNonStasis(event);
        case NoneMoved => v := OnNoneMoved(event);
        case InitiatorMoved => v := OnInitiatorMoved(event);
        case TransferredMoved => v := OnTransferredMoved(event);
        case NoneMovedCancelled => v := OnNoneMovedCancelled(event);
        case InitiatorMovedCancelled => v := OnInitiatorMovedCancelled(event);
        case TransferredMovedCancelled => v := OnTransferredMovedCancelled(event);
        case Ringback => v := OnRingback(event);
        case BlindTransferred => v := OnBlindTransferred(event);
        case Answered => v := OnAnswered(event);
        case Abandoned => v := OnAbandoned(event);
        case Ended => v := OnEnded(event);
        case Starting => v := Missing;
        case Invalid => v := Missing;
      }
    }
  }
}
