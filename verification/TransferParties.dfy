/** Who is left when a transfer ends: from ringback on, as long as each hangup is handled before the next
    party leaves, the parties that are there are the ones the state says, and nobody stays alone. */
module TransferParties {
  import opened Wrappers
  import opened TransferRecord
  import opened TransferStates
  import opened TransferSafety

  const EVERYONE: set<Role> := {TransferredRole, InitiatorRole, RecipientRole}

  function Party(t: Transfer, role: Role): string
  {
    match role
    case TransferredRole => t.transferredCall
    case InitiatorRole => t.initiatorCall
    case RecipientRole => t.recipientCall.GetOr("")
  }

  /** Three different channels. */
  predicate HasThreeParties(t: Transfer)
  {
    && t.recipientCall.Some?
    && t.transferredCall != "" && t.initiatorCall != "" && t.recipientCall.value != ""
    && t.transferredCall != t.initiatorCall
    && t.transferredCall != t.recipientCall.value && t.initiatorCall != t.recipientCall.value
  }

  predicate Present(t: Transfer, w: World, roles: set<Role>)
  {
    && (t.transferredCall in w.live <==> TransferredRole in roles)
    && (t.initiatorCall in w.live <==> InitiatorRole in roles)
    && (t.recipientCall.GetOr("") in w.live <==> RecipientRole in roles)
  }

  predicate Bridged(t: Transfer, w: World, c: string)
  {
    c in w.at && w.at[c] == t.bridgeId
  }

  /** In the transfer bridge, neither on hold nor hearing ringing, and no longer marked as part of a transfer. */
  predicate Talking(t: Transfer, w: World, c: string)
  {
    Bridged(t, w, c) && c !in w.held && c !in w.ringing && c !in w.tagged
  }

  /** What holds while the transfer is under way. */
  predicate UnderWay(t: Transfer, w: World)
  {
    var T, I, R := t.transferredCall, t.initiatorCall, t.recipientCall.GetOr("");
    && HasThreeParties(t)
    && match t.status {
      case Ringback =>
        && Present(t, w, EVERYONE)
        && I !in w.held && R !in w.held && T !in w.ringing && R !in w.ringing
      case Answered =>
        && Present(t, w, EVERYONE) && Bridged(t, w, I) && Bridged(t, w, R)
        && I !in w.held && R !in w.held && T !in w.ringing && I !in w.ringing && R !in w.ringing
      case BlindTransferred =>
        && Present(t, w, {TransferredRole, RecipientRole})
        && T !in w.held && R !in w.held && R !in w.ringing
      case Abandoned => Present(t, w, {InitiatorRole, RecipientRole})
      case _ => false
    }
  }

  /** What must hold when the transfer has ended: nobody is left, or two who talk to each other. */
  predicate Settled(t: Transfer, w: World)
  {
    && HasThreeParties(t) && t.status.Ended?
    && ( || Present(t, w, {})
         || (Present(t, w, {TransferredRole, InitiatorRole}) && Talking(t, w, t.transferredCall)
                && Talking(t, w, t.initiatorCall))
         || (Present(t, w, {TransferredRole, RecipientRole}) && Talking(t, w, t.transferredCall)
                && Talking(t, w, t.recipientCall.value)))
  }

  // ---- What can happen ----

  /** `Leaves`: a party that is there hangs up and this is handled; `EchoOf`: the hangup of a party that is
      gone is handled again, as ARI reports each one twice; `Elsewhere`: the world changes but not for the
      three parties. */
  datatype Act =
    | Leaves(role: Role)
    | EchoOf(role: Role)
    | Answers
    | Completes
    | Cancels
    | Elsewhere(w: World)

  function HangupOf(role: Role): Event
  {
    match role
    case TransferredRole => TransferredHangup
    case InitiatorRole => InitiatorHangup
    case RecipientRole => RecipientHangup
  }

  ghost predicate Possible(act: Act, t: Transfer, w: World)
  {
    match act
    case Leaves(role) => Party(t, role) in w.live
    case EchoOf(role) => Party(t, role) !in w.live
    case Elsewhere(w') => forall c :: t.Involves(c) ==> SameFor(c, w, w')
    case _ => true
  }

  function Do(act: Act, t: Transfer, w: World): Outcome
  {
    match act
    case Leaves(role) => Fire(HangupOf(role), t, Leave(w, Party(t, role)))
    case EchoOf(role) => Fire(HangupOf(role), t, w)
    case Answers => Fire(RecipientAnswer, t, w)
    case Completes => Fire(Complete, t, w)
    case Cancels => Fire(Cancel, t, w)
    case Elsewhere(w') => Stay(t, w')
  }

  /** The record afterwards: one that a raising transition leaves as it was. */
  function Record(o: Outcome, t: Transfer): Transfer
  {
    if o.verdict.Returned? then o.t else t
  }

  // ---- The protocol as one table ----

  datatype Scene = Scene(status: Status, present: set<Role>)

  function Cast(status: Status): set<Role>
  {
    match status
    case BlindTransferred => {TransferredRole, RecipientRole}
    case Abandoned => {InitiatorRole, RecipientRole}
    case _ => EVERYONE
  }

  /** What the protocol prescribes: the next state, and who is there. */
  function Prescribed(act: Act, status: Status): Scene
  {
    var same := Scene(status, Cast(status));
    match act
    case Elsewhere(_) => same
    case EchoOf(_) => same
    case Leaves(TransferredRole) =>
      if status.BlindTransferred? then Scene(Ended, {}) else Scene(Abandoned, {InitiatorRole, RecipientRole})
    case Leaves(InitiatorRole) =>
      if status.Ringback? then Scene(BlindTransferred, {TransferredRole, RecipientRole})
      else if status.Answered? then Scene(Ended, {TransferredRole, RecipientRole})
      else Scene(Ended, {})
    case Leaves(RecipientRole) =>
      if status.Ringback? || status.Answered? then Scene(Ended, {TransferredRole, InitiatorRole}) else Scene(Ended, {})
    case Answers =>
      if status.Ringback? then Scene(Answered, EVERYONE)
      else if status.BlindTransferred? then Scene(Ended, {TransferredRole, RecipientRole})
      else same
    case Completes =>
      if status.Ringback? then Scene(BlindTransferred, {TransferredRole, RecipientRole})
      else if status.Answered? then Scene(Ended, {TransferredRole, RecipientRole})
      else same
    case Cancels =>
      if status.Ringback? || status.Answered? then Scene(Ended, {TransferredRole, InitiatorRole}) else Scene(Ended, {})
  }

  predicate Follows(scene: Scene, t: Transfer, w: World)
  {
    && t.status == scene.status && Present(t, w, scene.present)
    && if t.status.Ended? then Settled(t, w) else UnderWay(t, w)
  }

  lemma RingbackLeaveFollows(act: Act, t: Transfer, w: World)
    requires UnderWay(t, w) && Possible(act, t, w) && t.status.Ringback? && (act.Leaves? || act.EchoOf?)
    ensures var o := Do(act, t, w);
            Follows(Prescribed(act, t.status), Record(o, t), o.w)
  {
  }

  lemma RingbackRequestFollows(act: Act, t: Transfer, w: World)
    requires UnderWay(t, w) && t.status.Ringback? && (act.Answers? || act.Completes? || act.Cancels?)
    ensures var o := Do(act, t, w);
            Follows(Prescribed(act, t.status), Record(o, t), o.w)
  {
  }

  lemma AnsweredLeaveFollows(act: Act, t: Transfer, w: World)
    requires UnderWay(t, w) && Possible(act, t, w) && t.status.Answered? && (act.Leaves? || act.EchoOf?)
    ensures var o := Do(act, t, w);
            Follows(Prescribed(act, t.status), Record(o, t), o.w)
  {
  }

  lemma AnsweredRequestFollows(act: Act, t: Transfer, w: World)
    requires UnderWay(t, w) && t.status.Answered? && (act.Answers? || act.Completes? || act.Cancels?)
    ensures var o := Do(act, t, w);
            Follows(Prescribed(act, t.status), Record(o, t), o.w)
  {
  }

  lemma BlindFollows(act: Act, t: Transfer, w: World)
    requires UnderWay(t, w) && Possible(act, t, w) && t.status.BlindTransferred? && !act.Elsewhere?
    ensures var o := Do(act, t, w);
            Follows(Prescribed(act, t.status), Record(o, t), o.w)
  {
  }

  lemma AbandonedFollows(act: Act, t: Transfer, w: World)
    requires UnderWay(t, w) && Possible(act, t, w) && t.status.Abandoned? && !act.Elsewhere?
    ensures var o := Do(act, t, w);
            Follows(Prescribed(act, t.status), Record(o, t), o.w)
  {
  }

  lemma ElsewhereFollows(act: Act, t: Transfer, w: World)
    requires UnderWay(t, w) && Possible(act, t, w) && act.Elsewhere?
    ensures UnderWay(t, act.w) && Present(t, act.w, Cast(t.status))
  {
    assert t.Involves(t.transferredCall) && t.Involves(t.initiatorCall) && t.Involves(t.recipientCall.value);
    assert forall c :: t.Involves(c) ==> Get(act.w.at, c) == Get(w.at, c);
  }

  /** The states do what the protocol prescribes, for every transfer under way, every world and every act. */
  lemma ProtocolIsFollowed(act: Act, t: Transfer, w: World)
    requires UnderWay(t, w) && Possible(act, t, w)
    ensures var o := Do(act, t, w);
            Follows(Prescribed(act, t.status), Record(o, t), o.w)
  {
    if act.Elsewhere? {
      ElsewhereFollows(act, t, w);
    } else if t.status.Ringback? {
      if act.Leaves? || act.EchoOf? {
        RingbackLeaveFollows(act, t, w);
      } else {
        RingbackRequestFollows(act, t, w);
      }
    } else if t.status.Answered? {
      if act.Leaves? || act.EchoOf? {
        AnsweredLeaveFollows(act, t, w);
      } else {
        AnsweredRequestFollows(act, t, w);
      }
    } else if t.status.BlindTransferred? {
      BlindFollows(act, t, w);
    } else {
      AbandonedFollows(act, t, w);
    }
  }

  // ---- Whole runs ----

  datatype Run = Run(records: seq<Transfer>, worlds: seq<World>, acts: seq<Act>)
  {
    /** A transfer is acted upon until it has ended. */
    ghost predicate Valid()
    {
      && |records| == |worlds| == |acts| + 1
      && forall i :: 0 <= i < |acts| ==> IsStep(i)
    }

    ghost predicate IsStep(i: nat)
      requires |records| == |worlds| == |acts| + 1 && i < |acts|
    {
      var o := Do(acts[i], records[i], worlds[i]);
      && !records[i].status.Ended? && Possible(acts[i], records[i], worlds[i])
      && records[i + 1] == Record(o, records[i]) && worlds[i + 1] == o.w
    }
  }

  /** Over any run that starts in a transfer under way: at every moment either the parties that are there are
      exactly those of its state, or it has ended with nobody left or two parties who talk to each other. */
  lemma {:induction false} NobodyIsStranded(run: Run, i: nat)
    requires run.Valid() && i < |run.records| && UnderWay(run.records[0], run.worlds[0])
    ensures UnderWay(run.records[i], run.worlds[i]) || Settled(run.records[i], run.worlds[i])
  {
    if i > 0 {
      NobodyIsStranded(run, i - 1);
      assert run.IsStep(i - 1);
      ProtocolIsFollowed(run.acts[i - 1], run.records[i - 1], run.worlds[i - 1]);
    }
  }

  /** Any start that reaches ringback while the transferred party is there leads to a transfer under way, if
      the recipient's channel is a new one and neither hold nor ringing was on before. */
  lemma RingbackIsUnderWay(event: Event, t: Transfer, w: World)
    requires t.transferredCall != t.initiatorCall && t.transferredCall != "" && t.initiatorCall != ""
    requires t.transferredCall in w.live && t.transferredCall !in w.ringing && t.initiatorCall !in w.held
    requires match Created(event) {
               case Some(r) => r != "" && r !in w.live && r !in w.held && r !in w.ringing && !t.Involves(r)
               case None => true
             }
    requires !t.status.Ringback? && Fire(event, t, w).t.status.Ringback?
    ensures UnderWay(Fire(event, t, w).t, Fire(event, t, w).w)
  {
    if t.status.Ready? {
      var tagged := TagBoth(w, t).w;
      assert LeaveOldBridge(tagged, t).live == w.live;
      StartedIsUnderWay(t, LeaveOldBridge(tagged, t), event.recipient);
    } else {
      assert t.status.InitiatorMoved? || t.status.TransferredMoved?;
      StartedIsUnderWay(t, w, event.recipient);
    }
  }

  lemma StartedIsUnderWay(t: Transfer, w: World, recipient: Option<string>)
    requires t.transferredCall != t.initiatorCall && t.transferredCall != "" && t.initiatorCall != ""
    requires t.transferredCall in w.live && t.transferredCall !in w.ringing && t.initiatorCall !in w.held
    requires recipient.Some? ==>
               var r := recipient.value;
               r != "" && r !in w.live && r !in w.held && r !in w.ringing && !t.Involves(r)
    ensures var o := StartAttended(t, w, recipient);
            o.verdict.Returned? ==> UnderWay(o.t, o.w)
  {
  }

  // ---- Two parties leave together ----

  /** The record and the world after two parties left together and their hangups are handled in this order. */
  function AfterBoth(t: Transfer, w: World, a: Role, b: Role): (Transfer, World)
  {
    var first := Fire(HangupOf(a), t, Leave(Leave(w, Party(t, a)), Party(t, b)));
    var t1 := Record(first, t);
    var second := Fire(HangupOf(b), t1, first.w);
    (Record(second, t1), second.w)
  }

  /** The party that is not among the two. */
  function Third(a: Role, b: Role): Role
  {
    if TransferredRole != a && TransferredRole != b then TransferredRole
    else if InitiatorRole != a && InitiatorRole != b then InitiatorRole
    else RecipientRole
  }

  /** Somebody is there, but neither is the transfer under way nor has it ended well. */
  predicate Stranded(t: Transfer, w: World)
  {
    !Present(t, w, {}) && !UnderWay(t, w) && !Settled(t, w)
  }

  lemma AnsweredOrder(t: Transfer, w: World, b: Role)
    requires UnderWay(t, w) && t.status.Answered? && b != InitiatorRole
    ensures var after := AfterBoth(t, w, InitiatorRole, b);
            && Present(after.0, after.1, {Third(InitiatorRole, b)})
            && after.0.status == (if b == TransferredRole then Abandoned else Ended)
  {
  }

  lemma AnsweredOtherOrder(t: Transfer, w: World, a: Role, b: Role)
    requires UnderWay(t, w) && t.status.Answered? && a != InitiatorRole && a != b
    ensures var after := AfterBoth(t, w, a, b); Present(after.0, after.1, {}) && Settled(after.0, after.1)
  {
  }

  lemma RingbackOrder(t: Transfer, w: World, a: Role, b: Role)
    requires UnderWay(t, w) && t.status.Ringback? && a != b
    ensures var after := AfterBoth(t, w, a, b); Present(after.0, after.1, {}) && Settled(after.0, after.1)
  {
  }

  lemma PairOrder(t: Transfer, w: World, a: Role, b: Role)
    requires UnderWay(t, w) && (t.status.BlindTransferred? || t.status.Abandoned?)
    requires a in Cast(t.status) && b in Cast(t.status) && a != b
    ensures var after := AfterBoth(t, w, a, b); Present(after.0, after.1, {}) && Settled(after.0, after.1)
  {
  }

  /** Why each hangup must be handled before the next party leaves: for every state, any two parties that leave
      together, and both orders of their hangups.  The third one stays alone exactly if the transfer was
      answered and the hangup of the initiator comes first; in all other cases nobody is left. */
  lemma OrderOfHangupsMatters(t: Transfer, w: World, a: Role, b: Role)
    requires UnderWay(t, w) && a in Cast(t.status) && b in Cast(t.status) && a != b
    ensures var after := AfterBoth(t, w, a, b);
            && (Stranded(after.0, after.1) <==> t.status.Answered? && a == InitiatorRole)
            && Present(after.0, after.1, if Stranded(after.0, after.1) then {Third(a, b)} else {})
            && (!Stranded(after.0, after.1) ==> Settled(after.0, after.1))
  {
    if t.status.Answered? {
      if a == InitiatorRole {
        AnsweredOrder(t, w, b);
      } else {
        AnsweredOtherOrder(t, w, a, b);
      }
    } else if t.status.Ringback? {
      RingbackOrder(t, w, a, b);
    } else {
      PairOrder(t, w, a, b);
    }
  }

  /** Of the two cases in which somebody stays alone, the second report of the initiator's hangup ends the one
      in which the transferred party left; when the recipient left, the transfer has ended and its record is
      gone, and no report changes that the transferred party is alone. */
  lemma SecondReportsHelpOnce(t: Transfer, w: World, again: Role)
    requires UnderWay(t, w) && t.status.Answered?
    ensures var after := AfterBoth(t, w, InitiatorRole, TransferredRole);
            var o := Fire(InitiatorHangup, after.0, after.1);
            Settled(o.t, o.w) && Present(o.t, o.w, {})
    ensures var after := AfterBoth(t, w, InitiatorRole, RecipientRole);
            var o := Fire(HangupOf(again), after.0, after.1);
            o.t.status.Ended? && o.w == after.1 && Present(o.t, o.w, {TransferredRole})
  {
    AnsweredOrder(t, w, TransferredRole);
    AnsweredOrder(t, w, RecipientRole);
  }
}
