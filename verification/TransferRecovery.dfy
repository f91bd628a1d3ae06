/** `process_lost_hangups`: what happens to a persisted transfer whose parties left while nobody listened. */
module TransferRecovery {
  import opened TransferRecord
  import opened TransferStates
  import opened TransferParties

  /** One of the three checks: the hangup is replayed on the current state if the party does not exist now. */
  function Replay(role: Role, o: Outcome): Outcome
  {
    if !o.verdict.Returned? || Party(o.t, role) in o.w.live then o
    else
      var next := Fire(HangupOf(role), o.t, o.w);
      Outcome(next.verdict, next.t, next.w, o.notes + next.notes)
  }

  function Recover(t: Transfer, w: World): Outcome
  {
    Replay(RecipientRole, Replay(InitiatorRole, Replay(TransferredRole, Stay(t, w))))
  }

  predicate Persistent(s: Status)
  {
    s.Ringback? || s.Answered? || s.BlindTransferred? || s.Abandoned?
  }

  function Gone(t: Transfer, w: World): set<Role>
  {
    set role: Role | role in EVERYONE && Party(t, role) !in w.live
  }

  /** Whether what is left cannot go on: the recipient is gone, or the party that the state still needs, or
      any two. */
  predicate CannotGoOn(t: Transfer, w: World)
  {
    || t.recipientCall.GetOr("") !in w.live
    || (t.initiatorCall !in w.live && (t.status.Answered? || t.status.Abandoned? || t.transferredCall !in w.live))
    || (t.transferredCall !in w.live && t.status.BlindTransferred?)
  }

  lemma TwoGoneCannotGoOn(t: Transfer, w: World, a: Role, b: Role)
    requires a != b && {a, b} <= Gone(t, w)
    ensures CannotGoOn(t, w)
  {
    assert a in Gone(t, w) && b in Gone(t, w);
  }

  /** Whatever the world looks like, recovery of a transfer in one of these states does not raise, and ends it
      exactly when what is left cannot go on. */
  lemma RecoveryEndsExactly(t: Transfer, w: World)
    requires HasThreeParties(t) && Persistent(t.status)
    ensures Recover(t, w).verdict.Returned?
    ensures Recover(t, w).t.status.Ended? <==> CannotGoOn(t, w)
  {
    match t.status
    case Ringback => RingbackRecovers(t, w);
    case Answered => AnsweredRecovers(t, w);
    case BlindTransferred => BlindRecovers(t, w);
    case Abandoned => AbandonedRecovers(t, w);
  }

  lemma RingbackRecovers(t: Transfer, w: World)
    requires HasThreeParties(t) && t.status.Ringback?
    ensures Recover(t, w).verdict.Returned? && (Recover(t, w).t.status.Ended? <==> CannotGoOn(t, w))
  {
  }

  lemma AnsweredRecovers(t: Transfer, w: World)
    requires HasThreeParties(t) && t.status.Answered?
    ensures Recover(t, w).verdict.Returned? && (Recover(t, w).t.status.Ended? <==> CannotGoOn(t, w))
  {
  }

  lemma BlindRecovers(t: Transfer, w: World)
    requires HasThreeParties(t) && t.status.BlindTransferred?
    ensures Recover(t, w).verdict.Returned? && (Recover(t, w).t.status.Ended? <==> CannotGoOn(t, w))
  {
  }

  lemma AbandonedRecovers(t: Transfer, w: World)
    requires HasThreeParties(t) && t.status.Abandoned?
    ensures Recover(t, w).verdict.Returned? && (Recover(t, w).t.status.Ended? <==> CannotGoOn(t, w))
  {
  }

  // ---- What recovery leaves behind ----

  /** A transfer that was under way, some of whose parties may have left since. */
  predicate Interrupted(t: Transfer, w: World)
  {
    var T, I, R := t.transferredCall, t.initiatorCall, t.recipientCall.GetOr("");
    && HasThreeParties(t)
    && match t.status {
      case Ringback => I !in w.held && R !in w.held && T !in w.ringing && R !in w.ringing
      case Answered =>
        && (I in w.live ==> Bridged(t, w, I)) && (R in w.live ==> Bridged(t, w, R))
        && I !in w.held && R !in w.held && T !in w.ringing && I !in w.ringing && R !in w.ringing
      case BlindTransferred => I !in w.live && T !in w.held && R !in w.held && R !in w.ringing
      case Abandoned => T !in w.live
      case _ => false
    }
  }

  function LeaveAll(w: World, gone: set<string>): World
  {
    w.(live := w.live - gone, at := w.at - gone, held := w.held - gone, ringing := w.ringing - gone,
        tagged := w.tagged - gone)
  }

  lemma UnderWayThenLeft(t: Transfer, w: World, gone: set<string>)
    requires UnderWay(t, w)
    ensures Interrupted(t, LeaveAll(w, gone))
  {
  }

  /** The one loss that recovery does not repair: the initiator and the recipient of an answered transfer. */
  predicate StrandsTransferred(t: Transfer, w: World)
  {
    t.status.Answered? && Present(t, w, {TransferredRole})
  }

  /** What recovery makes of an interrupted transfer: it is under way again, or over with nobody left or two
      who talk to each other; except that the transferred party stays alone in the bridge exactly when it was
      the only one left of an answered transfer. */
  ghost predicate Repaired(t: Transfer, w: World, o: Outcome)
  {
    && o.verdict.Returned?
    && (StrandsTransferred(t, w) ==>
          o.t.status.Ended? && Present(o.t, o.w, {TransferredRole}) && Bridged(o.t, o.w, o.t.transferredCall))
    && (!StrandsTransferred(t, w) ==> UnderWay(o.t, o.w) || Settled(o.t, o.w))
  }

  lemma RingbackIsRepaired(t: Transfer, w: World)
    requires Interrupted(t, w) && t.status.Ringback?
    ensures Repaired(t, w, Recover(t, w))
  {
    if t.transferredCall in w.live {
      RingbackWithTransferred(t, w);
    } else {
      RingbackWithoutTransferred(t, w);
    }
  }

  lemma RingbackWithTransferred(t: Transfer, w: World)
    requires Interrupted(t, w) && t.status.Ringback? && t.transferredCall in w.live
    ensures Repaired(t, w, Recover(t, w))
  {
    if t.initiatorCall !in w.live {
      RingbackWithoutInitiator(t, w);
    }
  }

  lemma RingbackWithoutInitiator(t: Transfer, w: World)
    requires Interrupted(t, w) && t.status.Ringback? && t.transferredCall in w.live && t.initiatorCall !in w.live
    ensures Repaired(t, w, Recover(t, w))
  {
  }

  lemma RingbackWithoutTransferred(t: Transfer, w: World)
    requires Interrupted(t, w) && t.status.Ringback? && t.transferredCall !in w.live
    ensures Repaired(t, w, Recover(t, w))
  {
  }

  lemma AnsweredIsRepaired(t: Transfer, w: World)
    requires Interrupted(t, w) && t.status.Answered?
    ensures Repaired(t, w, Recover(t, w))
  {
    if t.transferredCall in w.live {
      AnsweredWithTransferred(t, w);
    } else {
      AnsweredWithoutTransferred(t, w);
    }
  }

  lemma AnsweredWithTransferred(t: Transfer, w: World)
    requires Interrupted(t, w) && t.status.Answered? && t.transferredCall in w.live
    ensures Repaired(t, w, Recover(t, w))
  {
  }

  lemma AnsweredWithoutTransferred(t: Transfer, w: World)
    requires Interrupted(t, w) && t.status.Answered? && t.transferredCall !in w.live
    ensures Repaired(t, w, Recover(t, w))
  {
  }

  lemma BlindIsRepaired(t: Transfer, w: World)
    requires Interrupted(t, w) && t.status.BlindTransferred?
    ensures Repaired(t, w, Recover(t, w))
  {
  }

  lemma AbandonedIsRepaired(t: Transfer, w: World)
    requires Interrupted(t, w) && t.status.Abandoned?
    ensures Repaired(t, w, Recover(t, w))
  {
  }

  lemma RecoveryRepairs(t: Transfer, w: World, gone: set<string>)
    requires UnderWay(t, w)
    ensures var w' := LeaveAll(w, gone);
            Repaired(t, w', Recover(t, w'))
  {
    var w' := LeaveAll(w, gone);
    UnderWayThenLeft(t, w, gone);
    match t.status
    case Ringback => RingbackIsRepaired(t, w');
    case Answered => AnsweredIsRepaired(t, w');
    case BlindTransferred => BlindIsRepaired(t, w');
    case Abandoned => AbandonedIsRepaired(t, w');
  }

  // ---- Transfers that have no recipient yet ----

  /** Whether recovery gets through a transfer that has no recipient yet: the last check finds no recipient,
      and only an ended transfer accepts its hangup. */
  predicate EndsBeforeLastCheck(t: Transfer, w: World)
  {
    match t.status
    case NoneMoved => t.transferredCall !in w.live
    case InitiatorMoved => t.transferredCall !in w.live
    case TransferredMoved => t.transferredCall !in w.live
    case NoneMovedCancelled => t.transferredCall !in w.live || t.initiatorCall !in w.live
    case InitiatorMovedCancelled => t.transferredCall !in w.live || t.initiatorCall !in w.live
    case TransferredMovedCancelled => t.transferredCall !in w.live || t.initiatorCall !in w.live
    case _ => false
  }

  predicate StillStarting(s: Status)
  {
    || s.Ready? || s.NonStasis? || s.NoneMoved? || s.InitiatorMoved? || s.TransferredMoved?
    || s.NoneMovedCancelled? || s.InitiatorMovedCancelled? || s.TransferredMovedCancelled?
  }

  /** Recovery of a transfer that has no recipient yet raises exactly when it is not over before the last
      check: in particular always while it is ready, and while it moves with the transferred party there. */
  lemma RecoveryRaisesExactly(t: Transfer, w: World)
    requires StillStarting(t.status) && t.recipientCall.None? && "" !in w.live
    ensures Recover(t, w).verdict.Returned? <==> EndsBeforeLastCheck(t, w)
  {
    if t.status.NoneMoved? || t.status.InitiatorMoved? || t.status.TransferredMoved? {
      MovingRecovers(t, w);
    } else if t.status.Ready? || t.status.NonStasis? {
      UnstartedRecovers(t, w);
    } else {
      CancelledRecovers(t, w);
    }
  }

  lemma MovingRecovers(t: Transfer, w: World)
    requires t.status.NoneMoved? || t.status.InitiatorMoved? || t.status.TransferredMoved?
    requires t.recipientCall.None? && "" !in w.live
    ensures Recover(t, w).verdict.Returned? <==> t.transferredCall !in w.live
  {
  }

  lemma UnstartedRecovers(t: Transfer, w: World)
    requires (t.status.Ready? || t.status.NonStasis?) && t.recipientCall.None? && "" !in w.live
    ensures Recover(t, w).verdict.Raised?
  {
  }

  lemma CancelledRecovers(t: Transfer, w: World)
    requires t.status.NoneMovedCancelled? || t.status.InitiatorMovedCancelled? || t.status.TransferredMovedCancelled?
    requires t.recipientCall.None? && "" !in w.live
    ensures Recover(t, w).verdict.Returned? <==> t.transferredCall !in w.live || t.initiatorCall !in w.live
  {
  }
}
