/** The way to ringback and what the parties hear on it: who has moved into stasis by which status, what `create`
    reaches, who is put on hold, hears ringing and is marked, and whom a hangup of a channel is for. */
module TransferMoves {
  import opened Wrappers
  import opened TransferRecord
  import opened TransferStates
  import opened TransferSafety
  import opened TransferParties
  import opened TransferRecovery
  import opened TransferSystem

  // ---- Whom a channel stands for ----

  /** The role of a party is its role. */
  lemma PartyHasItsRole(t: Transfer, role: Role)
    requires HasThreeParties(t)
    ensures t.Role(Party(t, role)) == Some(role)
  {
  }

  /** A call has a role exactly if the transfer involves it, and then it is the party of that role. */
  lemma RoleIsOfItsParty(t: Transfer, call: string)
    ensures t.Role(call).Some? <==> t.Involves(call)
    ensures t.Role(call).Some? ==> Party(t, t.Role(call).value) == call
  {
  }

  // ---- Moving into stasis ----

  /** Who is in stasis by this status, and whether the transfer was cancelled meanwhile. */
  datatype Progress = Progress(moved: set<Role>, cancelled: bool)

  function ProgressOf(status: Status): Option<Progress>
  {
    match status
    case NoneMoved => Some(Progress({}, false))
    case InitiatorMoved => Some(Progress({InitiatorRole}, false))
    case TransferredMoved => Some(Progress({TransferredRole}, false))
    case NoneMovedCancelled => Some(Progress({}, true))
    case InitiatorMovedCancelled => Some(Progress({InitiatorRole}, true))
    case TransferredMovedCancelled => Some(Progress({TransferredRole}, true))
    case _ => None
  }

  /** The party that joins stasis by an event. */
  function Joiner(event: Event): Option<Role>
  {
    match event
    case TransferredJoined(_) => Some(TransferredRole)
    case InitiatorJoined(_) => Some(InitiatorRole)
    case _ => None
  }

  /** Where an event leads: on to this progress, to the attended part, to the end, nowhere (the event raises), or it
      is not for this state at all. */
  datatype Way =
    | Onwards(progress: Progress, goesBlind: bool)
    | Attends
    | Ends(hungUp: set<Role>)
    | EndsInCancel
    | Raises
    | Ignores

  const BOTH: set<Role> := {TransferredRole, InitiatorRole}

  /** The way in terms of who moved: the second party to arrive starts the attended part, unless the transfer was
      cancelled, which then ends with the first arrival; a transfer goes blind when its initiator completes or
      leaves; and when the transferred party leaves, an initiator who already moved is hung up with it. */
  function WayOf(p: Progress, event: Event): Way
  {
    match event
    case TransferredJoined(_) => Arrives(p, TransferredRole)
    case InitiatorJoined(_) => Arrives(p, InitiatorRole)
    case TransferredHangup => Ends(if InitiatorRole in p.moved then BOTH else {TransferredRole})
    case InitiatorHangup =>
      if !p.cancelled then Onwards(p, true) else Ends(if TransferredRole in p.moved then BOTH else {})
    case Complete => if p.cancelled then Raises else Onwards(p, true)
    case Cancel => Onwards(Progress(p.moved, true), false)
    case _ => Raises
  }

  function Arrives(p: Progress, role: Role): Way
  {
    if role in p.moved then Ignores
    else if p.cancelled then EndsInCancel
    else if p.moved != {} then Attends
    else Onwards(Progress({role}, false), false)
  }

  /** Exactly these parties are hung up, and no other channel. */
  predicate HangsUp(t: Transfer, w: World, w': World, roles: set<Role>)
  {
    w'.live == w.live - set role | role in roles :: Party(t, role)
  }

  /** A cancel puts the two parties together if both are there, and hangs up both otherwise. */
  predicate CallsOff(t: Transfer, w: World, w': World)
  {
    var T, I := t.transferredCall, t.initiatorCall;
    if T in w.live && I in w.live then
      && w'.live == w.live && Bridged(t, w', T) && Bridged(t, w', I)
      && T !in w'.held && I !in w'.ringing && T !in w'.tagged && I !in w'.tagged
    else w'.live == w.live - {T, I}
  }

  predicate Goes(way: Way, t: Transfer, w: World, o: Outcome)
  {
    match way
    case Onwards(p, goesBlind) =>
      && o.verdict.Returned? && ProgressOf(o.t.status) == Some(p) && o.w == w
      && o.t.flow == if goesBlind then Blind else t.flow
    case Attends => if o.verdict.Returned? then o.t.status.Ringback? else o.verdict.Raised?
    case Ends(hungUp) => o.verdict.Returned? && o.t.status.Ended? && HangsUp(t, w, o.w, hungUp)
    case EndsInCancel => o.verdict.Returned? && o.t.status.Ended? && CallsOff(t, w, o.w)
    case Raises => o.verdict.Raised? && o.t == t && o.w == w
    case Ignores => o.verdict.Missing? && o.t == t && o.w == w
  }

  /** The status says who has moved into stasis: in each of the six states, every event goes the way that those who
      moved so far, and whether the transfer was cancelled, call for. */
  lemma MovesAreTracked(event: Event, t: Transfer, w: World)
    requires HasTwoParties(t) && ProgressOf(t.status).Some?
    ensures Goes(WayOf(ProgressOf(t.status).value, event), t, w, Fire(event, t, w))
  {
    if ProgressOf(t.status).value.cancelled {
      CancelledMovesAreTracked(event, t, w);
    }
  }

  lemma CancelledMovesAreTracked(event: Event, t: Transfer, w: World)
    requires HasTwoParties(t) && ProgressOf(t.status).Some? && ProgressOf(t.status).value.cancelled
    ensures Goes(WayOf(ProgressOf(t.status).value, event), t, w, Fire(event, t, w))
  {
  }

  /** Before there is a recipient. */
  predicate HasTwoParties(t: Transfer)
  {
    t.transferredCall != "" && t.initiatorCall != "" && t.transferredCall != t.initiatorCall && t.recipientCall.None?
  }

  // ---- The attended part ----

  /** Any event that starts the attended part creates the recipient, puts the transferred party on hold if it is there,
      lets the initiator hear ringing, and marks the recipient as part of the transfer (and at a start in stasis the
      two others).  A bridge that holds just the two parties is destroyed by a start in stasis; nothing else changes. */
  lemma AttendedStart(event: Event, t: Transfer, w: World)
    requires !t.status.Ringback? && Fire(event, t, w).t.status.Ringback?
    ensures var o := Fire(event, t, w);
            && o.verdict.Returned? && o.notes == [Updated] && Created(event).Some? && t.initiatorCall in w.live
            && o.t == t.(status := Ringback, recipientCall := Created(event))
            && var r := Created(event).value;
               && o.w.live == w.live + {r}
               && o.w.held == w.held + (if t.transferredCall in w.live then {t.transferredCall} else {})
               && o.w.ringing == w.ringing + {t.initiatorCall}
               && o.w.tagged == w.tagged + {r} + if t.status.Ready? then {t.transferredCall, t.initiatorCall} else {}
    ensures var o, bridge := Fire(event, t, w), Get(w.at, t.initiatorCall);
            if t.status.Ready? && bridge.Some? && HoldsJust(w, bridge.value, {t.transferredCall, t.initiatorCall}) then
              && bridge.value !in o.w.bridges.existing && o.w.bridges.existing == w.bridges.existing - {bridge.value}
              && forall c :: Get(o.w.at, c) ==
                             if c == t.transferredCall || c == t.initiatorCall then None else Get(w.at, c)
            else o.w.at == w.at && o.w.bridges == w.bridges
  {
    var bridge := Get(w.at, t.initiatorCall);
    if bridge.Some? {
      assert HoldsJust(w, bridge.value, {t.transferredCall, t.initiatorCall})
        <==> w.Members(bridge.value) == {t.transferredCall, t.initiatorCall};
    }
  }

  predicate HoldsJust(w: World, bridge: string, channels: set<string>)
  {
    && (forall c :: c in channels ==> c in w.at && w.at[c] == bridge)
    && forall c :: c in w.at && w.at[c] == bridge ==> c in channels
  }

  // ---- What is notified ----

  /** What clients hear of a transition, from the event and the two states: that the transferred party left, that the
      transfer was called off, that the initiator is out of it, that the recipient rings or answered; and after that
      the answer, or the end. */
  function Notices(event: Event, s: Status, s': Status): seq<Note>
  {
    if s' == s then []
    else NewsOf(event, s, s') + if s'.Ended? then [EndedNote] else if s'.Answered? then [AnsweredNote] else []
  }

  function NewsOf(event: Event, s: Status, s': Status): seq<Note>
  {
    match event
    case TransferredHangup => [AbandonedNote]
    case InitiatorHangup => if s.Answered? || s'.BlindTransferred? then [CompletedNote] else []
    case RecipientHangup => if s.Abandoned? then [] else [CancelledNote]
    case Complete => if s.Answered? || s'.BlindTransferred? then [CompletedNote] else []
    case Cancel => if s'.Ended? then [CancelledNote] else []
    case RecipientAnswer => if s.BlindTransferred? then [AnsweredNote] else []
    case TransferredJoined(_) => if s'.Ringback? then [Updated] else if s'.Ended? then [CancelledNote] else []
    case InitiatorJoined(_) => if s'.Ringback? then [Updated] else if s'.Ended? then [CancelledNote] else []
    case Start(_, _, _) => if s'.Ringback? then [Updated] else []
  }

  /** Every transition notifies exactly this, and one that raises, or is not for the state, nothing. */
  lemma TransitionsNotify(event: Event, t: Transfer, w: World)
    ensures var o := Fire(event, t, w);
            o.notes == if o.verdict.Returned? then Notices(event, t.status, o.t.status) else []
  {
  }

  /** An event is not for a state at all exactly in the two states that have no class, and when a party arrives that has
      no business to arrive in the state. */
  lemma MissingExactly(event: Event, t: Transfer, w: World)
    ensures Fire(event, t, w).verdict.Missing? <==>
              t.status.Starting? || t.status.Invalid? ||
              match event
              case TransferredJoined(_) =>
                !t.status.NoneMoved? && !t.status.InitiatorMoved?
                && !t.status.NoneMovedCancelled? && !t.status.InitiatorMovedCancelled?
              case InitiatorJoined(_) =>
                !t.status.NoneMoved? && !t.status.TransferredMoved?
                && !t.status.NoneMovedCancelled? && !t.status.TransferredMovedCancelled?
              case _ => false
  {
  }

  /** What the parties hear, and who is marked, while a transfer is under way: the transferred party is on hold until
      somebody is free for it, and hears ringing when it waits for the recipient alone. */
  predicate Hears(t: Transfer, w: World)
  {
    var T, I, R := t.transferredCall, t.initiatorCall, t.recipientCall.GetOr("");
    match t.status
    case Ringback => T in w.held && I in w.ringing && {T, I, R} <= w.tagged
    case Answered => T in w.held && {T, I, R} <= w.tagged
    case BlindTransferred => T in w.ringing && {T, R} <= w.tagged
    case Abandoned => {I, R} <= w.tagged
    case _ => true
  }

  lemma ActKeepsHearing(act: Act, t: Transfer, w: World)
    requires UnderWay(t, w) && Hears(t, w) && Possible(act, t, w) && !act.Elsewhere?
    ensures var o := Do(act, t, w); Hears(Record(o, t), o.w)
  {
  }

  lemma ElsewhereKeepsHearing(t: Transfer, w: World, w': World)
    requires UnderWay(t, w) && Hears(t, w) && Possible(Act.Elsewhere(w'), t, w)
    ensures Hears(t, w')
  {
    assert t.Involves(t.transferredCall) && t.Involves(t.initiatorCall) && t.Involves(t.recipientCall.value);
  }

  /** Over any run that starts in a transfer under way, everybody hears what the status says. */
  lemma {:induction false} EverybodyHearsRight(run: TransferParties.Run, i: nat)
    requires run.Valid() && i < |run.records|
    requires UnderWay(run.records[0], run.worlds[0]) && Hears(run.records[0], run.worlds[0])
    ensures Hears(run.records[i], run.worlds[i])
  {
    if i > 0 {
      EverybodyHearsRight(run, i - 1);
      NobodyIsStranded(run, i - 1);
      assert run.IsStep(i - 1);
      match run.acts[i - 1]
      case Elsewhere(w) => ElsewhereKeepsHearing(run.records[i - 1], run.worlds[i - 1], w);
      case _ => ActKeepsHearing(run.acts[i - 1], run.records[i - 1], run.worlds[i - 1]);
    }
  }

  // ---- The world ----

  lemma MovingStaysConsistent(w: World, t: Transfer, c: string)
    requires w.Consistent()
    ensures Move(w, t, c).w.Consistent() && MoveRecipient(w, t).w.Consistent()
  {
  }

  lemma HangingUpStaysConsistent(w: World, t: Transfer, c: string)
    requires w.Consistent()
    ensures Leave(w, c).Consistent() && HangupRecipient(w, t).Consistent() && HangupAll(w, t).Consistent()
  {
  }

  lemma CancellingStaysConsistent(w: World, t: Transfer)
    requires w.Consistent()
    ensures CancelTransfer(w, t).Consistent()
  {
    var left := HangupRecipient(Untag(Untag(w, t.transferredCall), t.initiatorCall), t);
    HangingUpStaysConsistent(Untag(Untag(w, t.transferredCall), t.initiatorCall), t, "");
    RebridgingStaysConsistent(left, t);
    HangingUpStaysConsistent(Rebridge(left, t).w, t, "");
  }

  lemma RebridgingStaysConsistent(w: World, t: Transfer)
    requires w.Consistent()
    ensures Rebridge(w, t).w.Consistent() && UnholdAndMove(w, t).w.Consistent()
  {
    MovingStaysConsistent(Unhold(w, t.transferredCall).w, t, t.transferredCall);
    var unrung := Unring(w, t.initiatorCall).w;
    MovingStaysConsistent(Unhold(unrung, t.transferredCall).w, t, t.transferredCall);
    MovingStaysConsistent(UnholdAndMove(unrung, t).w, t, t.initiatorCall);
  }

  lemma AnsweringStaysConsistent(w: World, t: Transfer, c: string)
    requires w.Consistent()
    ensures MoveRecipient(Move(Unring(w, c).w, t, c).w, t).w.Consistent()
  {
    MovingStaysConsistent(Unring(w, c).w, t, c);
    MovingStaysConsistent(Move(Unring(w, c).w, t, c).w, t, c);
  }

  lemma StartingStaysConsistent(w: World, t: Transfer, recipient: Option<string>)
    requires w.Consistent() && recipient != Some("")
    ensures StartAttended(t, w, recipient).w.Consistent()
    ensures TagBoth(w, t).w.Consistent() && LeaveOldBridge(w, t).Consistent()
  {
  }

  lemma BlindStaysConsistent(w: World, t: Transfer)
    requires w.Consistent()
    ensures BecomeBlind(t, w).w.Consistent()
  {
    HangingUpStaysConsistent(Unhold(w, t.transferredCall).w, t, "");
  }

  lemma StartsStayConsistent(event: Event, t: Transfer, w: World)
    requires w.Consistent() && Created(event) != Some("") && (t.status.Ready? || t.status.NonStasis?)
    ensures Fire(event, t, w).w.Consistent()
  {
    StartingStaysConsistent(w, t, Created(event));
    StartingStaysConsistent(TagBoth(w, t).w, t, Created(event));
    StartingStaysConsistent(LeaveOldBridge(TagBoth(w, t).w, t), t, Created(event));
  }

  lemma MovesStayConsistent(event: Event, t: Transfer, w: World)
    requires w.Consistent() && Created(event) != Some("") && ProgressOf(t.status).Some?
    requires !ProgressOf(t.status).value.cancelled
    ensures Fire(event, t, w).w.Consistent()
  {
    StartingStaysConsistent(w, t, Created(event));
    HangingUpStaysConsistent(w, t, t.transferredCall);
    HangingUpStaysConsistent(Abandon(w, t), t, "");
  }

  lemma CancelledMovesStayConsistent(event: Event, t: Transfer, w: World)
    requires w.Consistent() && ProgressOf(t.status).Some? && ProgressOf(t.status).value.cancelled
    ensures Fire(event, t, w).w.Consistent()
  {
    CancellingStaysConsistent(w, t);
    HangingUpStaysConsistent(w, t, t.transferredCall);
    HangingUpStaysConsistent(Abandon(w, t), t, "");
  }

  lemma AbandonedStaysConsistent(event: Event, t: Transfer, w: World)
    requires w.Consistent() && t.status.Abandoned?
    ensures Fire(event, t, w).w.Consistent()
  {
    CancellingStaysConsistent(w, t);
    HangingUpStaysConsistent(w, t, "");
    AnsweringStaysConsistent(w, t, t.initiatorCall);
  }

  lemma BlindTransferredStaysConsistent(event: Event, t: Transfer, w: World)
    requires w.Consistent() && t.status.BlindTransferred?
    ensures Fire(event, t, w).w.Consistent()
  {
    CancellingStaysConsistent(w, t);
    HangingUpStaysConsistent(w, t, t.transferredCall);
    HangingUpStaysConsistent(Abandon(w, t), t, "");
    AnsweringStaysConsistent(UntagRecipient(Untag(w, t.transferredCall), t), t, t.transferredCall);
  }

  lemma RingbackStaysConsistent(event: Event, t: Transfer, w: World)
    requires w.Consistent() && t.status.Ringback?
    ensures Fire(event, t, w).w.Consistent()
  {
    CancellingStaysConsistent(w, t);
    HangingUpStaysConsistent(w, t, t.transferredCall);
    HangingUpStaysConsistent(w, t, t.initiatorCall);
    BlindStaysConsistent(w, t);
    BlindStaysConsistent(Leave(w, t.initiatorCall), t);
    AnsweringStaysConsistent(w, t, t.initiatorCall);
  }

  lemma AnsweredStaysConsistent(event: Event, t: Transfer, w: World)
    requires w.Consistent() && t.status.Answered?
    ensures Fire(event, t, w).w.Consistent()
  {
    CancellingStaysConsistent(w, t);
    HangingUpStaysConsistent(w, t, t.transferredCall);
    RebridgingStaysConsistent(w, t);
    HangingUpStaysConsistent(Connect(w, t).w, t, t.initiatorCall);
  }

  /** Only channels that are there are in bridges, on hold, ringing or marked, and only in bridges that exist, before
      and after every transition. */
  lemma WorldStaysConsistent(event: Event, t: Transfer, w: World)
    requires w.Consistent() && Created(event) != Some("")
    ensures Fire(event, t, w).w.Consistent()
  {
    if t.status.Ready? || t.status.NonStasis? {
      StartsStayConsistent(event, t, w);
    } else if ProgressOf(t.status).Some? {
      if ProgressOf(t.status).value.cancelled {
        CancelledMovesStayConsistent(event, t, w);
      } else {
        MovesStayConsistent(event, t, w);
      }
    } else if t.status.Answered? {
      AnsweredStaysConsistent(event, t, w);
    } else if t.status.Ringback? {
      RingbackStaysConsistent(event, t, w);
    } else if t.status.BlindTransferred? {
      BlindTransferredStaysConsistent(event, t, w);
    } else if t.status.Abandoned? {
      AbandonedStaysConsistent(event, t, w);
    }
  }

  // ---- What create reaches ----

  /** The parties are still there when the record is written, and what the client asked for can be started. */
  predicate Succeeds(r: Request)
  {
    && r.transferred !in r.answers.leaveLate && r.initiator !in r.answers.leaveLate
    && if r.answers.inStasis then r.answers.recipient.Some? else r.answers.redirected
  }

  /** How far a transfer gets by `create`: to the attended part, or past it when it is blind, if the two channels are
      in stasis already; to wait for them to move if not; and no further than its first record if the start fails. */
  function Reached(r: Request): Status
  {
    if !Succeeds(r) then if r.answers.inStasis then Ready else NonStasis
    else if !r.answers.inStasis then NoneMoved
    else if r.flow.Attended? then Ringback
    else BlindTransferred
  }

  /** `create` is refused, without any effect, exactly if one of the two channels is gone, the extension does not exist,
      or the initiator has a transfer already. */
  lemma CreateRefusesExactly(s: System, r: Request)
    requires r.id !in s.used
    ensures Create(s, r) == Result(s, true) <==>
              || r.transferred !in s.world.live || r.initiator !in s.world.live
              || !r.answers.extensionExists || r.initiator in s.locked
  {
    if !Refused(s, r) && !Vanishes(r) {
      var started := FireIn(Persist(Lock(s, r), r), FirstRecord(r), StartOf(r));
      assert r.id in started.s.used && r.id in CompleteIfBlind(started, r.flow).s.used;
    }
  }

  /** `create`, for every answer of the world: how far it gets, what the record says, and that the initiator stays
      locked exactly if it succeeds. */
  lemma CreateReaches(s: System, r: Request)
    requires !Refused(s, r) && !Vanishes(r) && r.transferred != r.initiator
    ensures var d := Create(s, r);
            && (d.ok <==> Succeeds(r)) && (r.initiator in d.s.locked <==> Succeeds(r))
            && r.id in d.s.store && d.s.store.Keys == s.store.Keys + {r.id}
            && var t := d.s.store[r.id];
               && t.status == Reached(r) && t.flow == r.flow && t.id == r.id && t.bridgeId == r.id
               && t.transferredCall == r.transferred && t.initiatorCall == r.initiator
               && t.initiatorUuid == r.initiatorUuid && t.initiatorTenant == r.tenant
               && t.recipientCall == if Succeeds(r) && r.answers.inStasis then r.answers.recipient else None
  {
    var begun := Persist(Lock(s, r), r);
    StartReaches(r, begun.world);
    if Succeeds(r) && r.flow.Blind? {
      var started := FireIn(begun, FirstRecord(r), StartOf(r));
      CompletingReaches(started.o.t, started.s.world);
    }
  }

  lemma StartReaches(r: Request, w: World)
    requires r.answers.hasUser
    ensures var o, t := Fire(StartOf(r), FirstRecord(r), w), FirstRecord(r);
            && (o.verdict.Returned? <==>
                 && r.transferred in w.live && r.initiator in w.live
                 && if r.answers.inStasis then r.answers.recipient.Some? else r.answers.redirected)
            && (!o.verdict.Returned? ==> o.verdict.Raised?)
            && (o.verdict.Returned? ==> w.live <= o.w.live)
            && (o.verdict.Returned? && !r.answers.inStasis ==>
                 o.w == w.(tagged := w.tagged + {r.transferred, r.initiator}))
            && (o.verdict.Returned? ==>
                 o.t == if r.answers.inStasis then t.(status := Ringback, recipientCall := r.answers.recipient)
                        else t.(status := NoneMoved))
  {
  }

  lemma CompletingReaches(t: Transfer, w: World)
    requires (t.status.Ringback? || t.status.NoneMoved?) && t.transferredCall in w.live
    requires t.transferredCall != t.initiatorCall
    ensures var o := Fire(Complete, t, w);
            o.verdict.Returned?
            && o.t == t.(status := if t.status.Ringback? then BlindTransferred else NoneMoved, flow := Blind)
  {
  }
}
