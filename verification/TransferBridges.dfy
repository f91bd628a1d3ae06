/** The handler that empties a bridge in which one channel is left alone, and why it does not cut transfers. */
module TransferBridges {
  import opened Wrappers
  import opened TransferRecord
  import opened TransferStates
  import opened TransferSafety
  import opened TransferParties

  // ---- clean_bridge ----

  /** What `clean_bridge` does once it has a snapshot of the bridge, which may be out of date by then. */
  function CleanWith(snapshot: set<string>, store: map<string, Transfer>, w: World, bridge: string): World
  {
    if bridge in w.bridges.marks && w.bridges.marks[bridge] != "" && w.bridges.marks[bridge] in store then w
    else if |snapshot| == 1 then
      DestroyBridge(w.(live := w.live - snapshot, at := w.at - snapshot, held := w.held - snapshot,
                       ringing := w.ringing - snapshot, tagged := w.tagged - snapshot), bridge)
    else w
  }

  function CleanBridge(store: map<string, Transfer>, w: World, bridge: string): World
  {
    if bridge !in w.bridges.existing then w else CleanWith(w.Members(bridge), store, w, bridge)
  }

  /** The bridge belongs to a transfer that is persisted. */
  predicate IsOwned(store: map<string, Transfer>, w: World, bridge: string)
  {
    exists id :: id in store && id != "" && Get(w.bridges.marks, bridge) == Some(id)
  }

  /** The channel is alone in the bridge. */
  predicate IsAlone(w: World, bridge: string, c: string)
  {
    Get(w.at, c) == Some(bridge) && forall d :: d in w.at && w.at[d] == bridge ==> d == c
  }

  /** The cleaner hangs up exactly a channel that is alone in a bridge that belongs to no persisted transfer, and
      destroys that bridge; it does nothing else, and nothing at all otherwise. */
  lemma CleaningIsExact(store: map<string, Transfer>, w: World, bridge: string)
    ensures forall c :: bridge in w.bridges.existing && !IsOwned(store, w, bridge) && IsAlone(w, bridge, c) ==>
              var w' := CleanBridge(store, w, bridge);
              && w'.live == w.live - {c} && w'.at == w.at - {c} && w'.held == w.held - {c}
              && w'.ringing == w.ringing - {c} && w'.tagged == w.tagged - {c}
              && w'.bridges == Bridges(w.bridges.existing - {bridge}, w.bridges.marks - {bridge})
    ensures bridge !in w.bridges.existing || IsOwned(store, w, bridge) || (forall c :: !IsAlone(w, bridge, c)) ==>
              CleanBridge(store, w, bridge) == w
  {
    forall c | IsAlone(w, bridge, c) ensures w.Members(bridge) == {c} {
    }
    if |w.Members(bridge)| == 1 {
      var c :| c in w.Members(bridge);
      OneIsAll(w.Members(bridge), c);
      forall d | d in w.at && w.at[d] == bridge ensures d == c {
        assert d in w.Members(bridge);
      }
      assert IsAlone(w, bridge, c);
    }
  }

  lemma OneIsAll<T>(s: set<T>, a: T)
    requires |s| == 1 && a in s
    ensures s == {a}
  {
    assert s == {a} + (s - {a}) && |s - {a}| == 0;
  }

  lemma TwoAreNotAlone<T>(s: set<T>, a: T, b: T)
    requires a in s && b in s && a != b
    ensures |s| >= 2
  {
    assert {a, b} <= s;
    assert s == {a, b} + (s - {a, b});
    assert |{a, b}| == 2;
  }

  // ---- The bridge of a transfer is marked ----

  /** The transfer bridge, when it exists, names the transfer. */
  predicate Marked(t: Transfer, w: World)
  {
    t.bridgeId in w.bridges.existing ==> Get(w.bridges.marks, t.bridgeId) == Some(t.id)
  }

  predicate SameMarks(w: World, w': World, bridge: string)
  {
    (bridge in w'.bridges.existing <==> bridge in w.bridges.existing)
        && Get(w'.bridges.marks, bridge) == Get(w.bridges.marks, bridge)
  }

  /** The marks of `bridge` are as before, or `bridge` is the transfer's own and was just created, or gone. */
  predicate MarksKept(t: Transfer, w: World, w': World, bridge: string)
  {
    || SameMarks(w, w', bridge)
    || (bridge == t.bridgeId && Get(w'.bridges.marks, bridge) == Some(t.id))
    || bridge !in w'.bridges.existing
  }

  lemma CancelKeepsMarks(t: Transfer, w: World, bridge: string)
    ensures MarksKept(t, w, CancelTransfer(w, t), bridge)
  {
  }

  lemma BlindKeepsMarks(t: Transfer, w: World, bridge: string)
    ensures SameMarks(w, BecomeBlind(t, w).w, bridge)
  {
  }

  lemma HangupsKeepMarks(t: Transfer, w: World, bridge: string)
    ensures SameMarks(w, HangupAll(w, t), bridge) && SameMarks(w, HangupAll(Abandon(w, t), t), bridge)
        && SameMarks(w, Abandon(w, t), bridge)
  {
  }

  lemma AnswersKeepMarks(t: Transfer, w: World, c: string, bridge: string)
    ensures MarksKept(t, w, MoveRecipient(Move(Unring(w, c).w, t, c).w, t).w, bridge)
    ensures MarksKept(t, w, UnholdAndMove(w, t).w, bridge)
  {
  }

  lemma RingbackKeepsMarks(event: Event, t: Transfer, w: World, bridge: string)
    requires t.status.Ringback?
    ensures MarksKept(t, w, InRingback(event, t, w).w, bridge)
  {
    CancelKeepsMarks(t, w, bridge);
    BlindKeepsMarks(t, w, bridge);
    BlindKeepsMarks(t, Leave(w, t.initiatorCall), bridge);
    AnswersKeepMarks(t, w, t.initiatorCall, bridge);
  }

  lemma AnsweredKeepsMarks(event: Event, t: Transfer, w: World, bridge: string)
    requires t.status.Answered?
    ensures MarksKept(t, w, InAnswered(event, t, w).w, bridge)
  {
    CancelKeepsMarks(t, w, bridge);
    AnswersKeepMarks(t, w, t.initiatorCall, bridge);
  }

  lemma BlindTransferredKeepsMarks(event: Event, t: Transfer, w: World, bridge: string)
    requires t.status.BlindTransferred?
    ensures MarksKept(t, w, InBlindTransferred(event, t, w).w, bridge)
  {
    CancelKeepsMarks(t, w, bridge);
    HangupsKeepMarks(t, w, bridge);
    AnswersKeepMarks(t, UntagRecipient(Untag(w, t.transferredCall), t), t.transferredCall, bridge);
  }

  lemma AbandonedKeepsMarks(event: Event, t: Transfer, w: World, bridge: string)
    requires t.status.Abandoned?
    ensures MarksKept(t, w, InAbandoned(event, t, w).w, bridge)
  {
    CancelKeepsMarks(t, w, bridge);
    HangupsKeepMarks(t, w, bridge);
    AnswersKeepMarks(t, w, t.initiatorCall, bridge);
  }

  lemma StartKeepsMarks(t: Transfer, w: World, recipient: Option<string>, bridge: string)
    ensures SameMarks(w, Joined(t, w, recipient).w, bridge) && SameMarks(w, StartAttended(t, w, recipient).w, bridge)
    ensures SameMarks(w, TagBoth(w, t).w, bridge)
    ensures MarksKept(t, w, LeaveOldBridge(w, t), bridge)
  {
  }

  lemma ReadyKeepsMarks(event: Event, t: Transfer, w: World, bridge: string)
    requires t.status.Ready?
    ensures MarksKept(t, w, InReady(event, t, w).w, bridge)
  {
    if event.Start? {
      StartKeepsMarks(t, w, event.recipient, bridge);
      var tagged := TagBoth(w, t).w;
      StartKeepsMarks(t, tagged, event.recipient, bridge);
      StartKeepsMarks(t, LeaveOldBridge(tagged, t), event.recipient, bridge);
    }
  }

  lemma NonStasisKeepsMarks(event: Event, t: Transfer, w: World, bridge: string)
    requires t.status.NonStasis?
    ensures MarksKept(t, w, InNonStasis(event, t, w).w, bridge)
  {
    StartKeepsMarks(t, w, None, bridge);
  }

  lemma MovingKeepsMarks(event: Event, t: Transfer, w: World, bridge: string)
    requires t.status.NoneMoved? || t.status.InitiatorMoved? || t.status.TransferredMoved?
    ensures MarksKept(t, w, Fire(event, t, w).w, bridge)
  {
    HangupsKeepMarks(t, w, bridge);
    if event.TransferredJoined? || event.InitiatorJoined? {
      StartKeepsMarks(t, w, event.recipient, bridge);
    }
  }

  lemma CancelledKeepsMarks(event: Event, t: Transfer, w: World, bridge: string)
    requires t.status.NoneMovedCancelled? || t.status.InitiatorMovedCancelled? || t.status.TransferredMovedCancelled?
    ensures MarksKept(t, w, Fire(event, t, w).w, bridge)
  {
    CancelKeepsMarks(t, w, bridge);
    HangupsKeepMarks(t, w, bridge);
  }

  /** A transition of `t` keeps the bridges of all transfers marked, its own and any other one's. */
  lemma TransitionsKeepBridgesMarked(event: Event, t: Transfer, w: World, other: Transfer)
    requires Marked(other, w) && (other.bridgeId == t.bridgeId ==> other.id == t.id)
    ensures Marked(other, Fire(event, t, w).w)
  {
    if t.status.Ringback? {
      RingbackKeepsMarks(event, t, w, other.bridgeId);
    } else if t.status.Answered? {
      AnsweredKeepsMarks(event, t, w, other.bridgeId);
    } else if t.status.BlindTransferred? {
      BlindTransferredKeepsMarks(event, t, w, other.bridgeId);
    } else if t.status.Abandoned? {
      AbandonedKeepsMarks(event, t, w, other.bridgeId);
    } else if t.status.Ready? {
      ReadyKeepsMarks(event, t, w, other.bridgeId);
    } else if t.status.NonStasis? {
      NonStasisKeepsMarks(event, t, w, other.bridgeId);
    } else if 5 <= Rank(t.status) {
      MovingKeepsMarks(event, t, w, other.bridgeId);
    } else if 0 < Rank(t.status) {
      CancelledKeepsMarks(event, t, w, other.bridgeId);
    }
  }

  // ---- The cleaner and the transfer ----

  /** Whenever a transfer is under way and persisted, or settled and removed, cleaning its bridge leaves every
      channel of the transfer alive and every bridge membership as it was. */
  lemma CleanerSparesTheParties(store: map<string, Transfer>, t: Transfer, w: World, c: string)
    requires Marked(t, w) && t.id != "" && t.Involves(c) && c in w.live
    requires (UnderWay(t, w) && t.id in store) || (Settled(t, w) && t.id !in store)
    ensures var w' := CleanBridge(store, w, t.bridgeId);
            c in w'.live && Get(w'.at, c) == Get(w.at, c)
  {
    if Settled(t, w) {
      var other := if c == t.transferredCall && t.initiatorCall in w.live then t.initiatorCall
                   else if c == t.transferredCall then t.recipientCall.value
                   else t.transferredCall;
      TwoAreNotAlone(w.Members(t.bridgeId), c, other);
    }
  }

  // ---- Inside `complete` ----

  /** The worlds that `complete` of an answered transfer goes through, one ARI request after the other. */
  function CompletePoints(t: Transfer, w: World): seq<World>
    requires t.recipientCall.Some?
  {
    var unheld := Unhold(w, t.transferredCall).w;
    var moved := Move(unheld, t, t.transferredCall).w;
    var untagged := Untag(moved, t.transferredCall);
    var free := Untag(untagged, t.recipientCall.value);
    [w, unheld, moved, untagged, free, Leave(free, t.initiatorCall)]
  }

  lemma PairsInComplete(t: Transfer, w: World, i: nat)
    requires UnderWay(t, w) && t.status.Answered? && i < 6
    ensures var w' := CompletePoints(t, w)[i];
            && Bridged(t, w', t.recipientCall.value)
            && Bridged(t, w', if i < 5 then t.initiatorCall else t.transferredCall)
  {
  }

  /** At every point of `complete` the transfer bridge holds at least two channels, so that a cleaner that
      looks at the bridge then does nothing, even if it acts later in any other world and store. */
  lemma CompleteIsNeverCut(t: Transfer, w: World, i: nat, later: World, store: map<string, Transfer>)
    requires UnderWay(t, w) && t.status.Answered? && i < 6
    ensures CompletePoints(t, w)[5] == Fire(Complete, t, w).w
    ensures CleanWith(CompletePoints(t, w)[i].Members(t.bridgeId), store, later, t.bridgeId) == later
  {
    PairsInComplete(t, w, i);
    TwoAreNotAlone(CompletePoints(t, w)[i].Members(t.bridgeId), t.recipientCall.value,
                   if i < 5 then t.initiatorCall else t.transferredCall);
  }

  // ---- Inside `cancel` ----

  /** The worlds that `cancel` of an answered transfer goes through, one ARI request after the other. */
  function CancelPoints(t: Transfer, w: World): seq<World>
  {
    var free := Untag(w, t.transferredCall);
    var untagged := Untag(free, t.initiatorCall);
    var left := HangupRecipient(untagged, t);
    var unrung := Unring(left, t.initiatorCall).w;
    var unheld := Unhold(unrung, t.transferredCall).w;
    var moved := Move(unheld, t, t.transferredCall).w;
    [w, free, untagged, left, unrung, unheld, moved, Move(moved, t, t.initiatorCall).w]
  }

  /** From the hangup of the recipient to the move of the transferred party the bridge has lost one member; at
      the other points the initiator is there with somebody else. */
  lemma MembersInCancel(t: Transfer, w: World, i: nat)
    requires UnderWay(t, w) && t.status.Answered? && i < 8
    ensures var members := CancelPoints(t, w)[i].Members(t.bridgeId);
            && t.initiatorCall in members
            && (i < 3 ==> t.recipientCall.value in members)
            && (3 <= i < 6 ==> members == w.Members(t.bridgeId) - {t.recipientCall.value})
            && (6 <= i ==> t.transferredCall in members)
  {
  }

  lemma OneOfThem<T>(s: set<T>, a: T)
    requires a in s
    ensures |s| == 1 <==> s == {a}
  {
    assert s == {a} + (s - {a});
    assert |s| == 1 + |s - {a}|;
  }

  /** A snapshot of the bridge that is taken during `cancel` shows one channel alone exactly between the hangup
      of the recipient and the move of the transferred party, and exactly if the bridge held the initiator and
      the recipient only; that channel is the initiator. */
  lemma LoneExactly(t: Transfer, w: World, i: nat)
    requires UnderWay(t, w) && t.status.Answered? && i < 8
    ensures CancelPoints(t, w)[7] == Fire(Cancel, t, w).w
    ensures var snapshot := CancelPoints(t, w)[i].Members(t.bridgeId);
            && (|snapshot| == 1 <==> 3 <= i < 6 && w.Members(t.bridgeId) == {t.initiatorCall, t.recipientCall.value})
            && (|snapshot| == 1 ==> snapshot == {t.initiatorCall})
  {
    var snapshot := CancelPoints(t, w)[i].Members(t.bridgeId);
    MembersInCancel(t, w, i);
    OneOfThem(snapshot, t.initiatorCall);
    if i < 3 {
      TwoAreNotAlone(snapshot, t.initiatorCall, t.recipientCall.value);
    } else if 6 <= i {
      TwoAreNotAlone(snapshot, t.initiatorCall, t.transferredCall);
    } else {
      assert t.recipientCall.value in w.Members(t.bridgeId);
      assert w.Members(t.bridgeId) == snapshot + {t.recipientCall.value};
    }
  }

  /** `cancel` of an answered transfer can be cut, exactly in this way: the cleaner looks at the bridge between
      the hangup of the recipient and the move of the transferred party, the bridge held just these two, and
      the cleaner acts when the record is gone.  It then hangs up the initiator, who is talking to the
      transferred party by then.  In all other cases it does nothing. */
  lemma CancelIsCutExactly(t: Transfer, w: World, i: nat, store: map<string, Transfer>)
    requires UnderWay(t, w) && t.status.Answered? && Marked(t, w) && t.bridgeId in w.bridges.existing && t.id != ""
        && i < 8
    ensures var snapshot, after := CancelPoints(t, w)[i].Members(t.bridgeId), CancelPoints(t, w)[7];
            var cleaned := CleanWith(snapshot, store, after, t.bridgeId);
            && Talking(t, after, t.initiatorCall) && Talking(t, after, t.transferredCall)
            && (t.initiatorCall !in cleaned.live <==>
                  3 <= i < 6 && w.Members(t.bridgeId) == {t.initiatorCall, t.recipientCall.value} && t.id !in store)
            && (t.initiatorCall in cleaned.live ==> cleaned == after)
  {
    LoneExactly(t, w, i);
    AnsweredRequestFollows(Cancels, t, w);
    CancelKeepsItsMark(t, w);
  }

  lemma CancelKeepsItsMark(t: Transfer, w: World)
    requires t.bridgeId in w.bridges.existing
    ensures CancelTransfer(w, t).bridges == w.bridges
  {
  }
}
