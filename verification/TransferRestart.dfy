/** `process_lost_hangups` over the whole store, when calld connects to Asterisk again. */
module TransferRestart {
  import opened Wrappers
  import opened TransferRecord
  import opened TransferStates
  import opened TransferSafety
  import opened TransferParties
  import opened TransferRecovery
  import opened TransferSystem

  /** The loop; a record that is gone when its turn comes, or a transition that raises, ends it. */
  function RecoverEach(s: System, ids: seq<string>): Result
  {
    if ids == [] then Result(s, true)
    else
      var before, last := RecoverEach(s, ids[..|ids| - 1]), ids[|ids| - 1];
      if !before.ok then before
      else if last !in before.s.store then Result(before.s, false)
      else RecoverIn(before.s, before.s.store[last])
  }

  // ---- Recovery of one transfer, seen from the store ----

  predicate Alike(h: Handled, o: Outcome)
  {
    h.s.world == o.w && h.o.t == o.t && h.o.verdict == o.verdict
  }

  lemma ReplaysAlike(h: Handled, o: Outcome, role: Role)
    requires Alike(h, o) && Replay(role, o).verdict.Returned?
    ensures Alike(ReplayIn(h, role), Replay(role, o)) && o.verdict.Returned?
  {
  }

  lemma RecoversAlike(s: System, t: Transfer)
    requires Recover(t, s.world).verdict.Returned?
    ensures Alike(Replays(s, t), Recover(t, s.world))
  {
    var h0, o0 := Handled(s, Stay(t, s.world)), Stay(t, s.world);
    var h1, o1 := ReplayIn(h0, TransferredRole), Replay(TransferredRole, o0);
    var h2, o2 := ReplayIn(h1, InitiatorRole), Replay(InitiatorRole, o1);
    assert o1.verdict.Returned?;
    ReplaysAlike(h0, o0, TransferredRole);
    ReplaysAlike(h1, o1, InitiatorRole);
    ReplaysAlike(h2, o2, RecipientRole);
  }

  ghost predicate OtherRecordsKept(s: System, s': System, id: string)
  {
    forall x :: x != id ==> Get(s'.store, x) == Get(s.store, x)
  }

  lemma ReplayKeepsOthers(h: Handled, role: Role)
    ensures OtherRecordsKept(h.s, ReplayIn(h, role).s, h.o.t.id)
    ensures ReplayIn(h, role).o.t.id == h.o.t.id
  {
    TransitionDescends(HangupOf(role), h.o.t, h.s.world);
  }

  lemma RecoveryKeepsOthers(s: System, t: Transfer)
    ensures OtherRecordsKept(s, RecoverIn(s, t).s, t.id)
  {
    var h0 := Handled(s, Stay(t, s.world));
    var h1 := ReplayIn(h0, TransferredRole);
    var h2 := ReplayIn(h1, InitiatorRole);
    ReplayKeepsOthers(h0, TransferredRole);
    ReplayKeepsOthers(h1, InitiatorRole);
    ReplayKeepsOthers(h2, RecipientRole);
  }

  // ---- Recovery only hangs up ----

  predicate OnlyHangsUp(t: Transfer, w: World, o: Outcome)
  {
    o.w.live <= w.live && (Persistent(o.t.status) || o.t.status.Ended?)
  }

  lemma HangupOnlyHangsUp(role: Role, t: Transfer, w: World)
    requires Persistent(t.status) || t.status.Ended?
    ensures OnlyHangsUp(t, w, Fire(HangupOf(role), t, w))
  {
  }

  lemma RecoveryOnlyHangsUp(t: Transfer, w: World)
    requires Persistent(t.status)
    ensures Recover(t, w).w.live <= w.live
  {
    var o0 := Stay(t, w);
    var o1 := Replay(TransferredRole, o0);
    var o2 := Replay(InitiatorRole, o1);
    HangupOnlyHangsUp(TransferredRole, t, w);
    HangupOnlyHangsUp(InitiatorRole, o1.t, o1.w);
    HangupOnlyHangsUp(RecipientRole, o2.t, o2.w);
  }

  // ---- One turn ----

  /** What recovering `t` does to the store: it removes `t` exactly when `t` cannot go on, and leaves the
      other records alone; no channel comes to life. */
  ghost predicate TurnDone(s: System, s': System, t: Transfer)
  {
    && Sound(s')
    && (t.id !in s'.store <==> CannotGoOn(t, s.world))
    && OtherRecordsKept(s, s', t.id) && s'.world.live <= s.world.live
  }

  lemma OutcomeDecides(h: Handled, o: Outcome, t: Transfer)
    requires Alike(h, o) && Sound(h.s) && Current(h.s, h.o.t) && h.o.t.id == t.id
    ensures t.id !in h.s.store <==> o.t.status.Ended?
  {
    if t.id in h.s.store {
      assert Rank(h.s.store[t.id].status) > 0;
    }
  }

  lemma TurnRecovers(s: System, t: Transfer)
    requires Sound(s) && t.id in s.store && s.store[t.id] == t && HasThreeParties(t) && Persistent(t.status)
    ensures RecoverIn(s, t).ok && TurnDone(s, RecoverIn(s, t).s, t)
  {
    var h, o := Replays(s, t), Recover(t, s.world);
    assert o.verdict.Returned? && (o.t.status.Ended? <==> CannotGoOn(t, s.world)) by {
      RecoveryEndsExactly(t, s.world);
    }
    assert Alike(h, o) by {
      RecoversAlike(s, t);
    }
    assert Sound(h.s) by {
      RecoveryKeeps(s, t);
    }
    assert OtherRecordsKept(s, h.s, t.id) by {
      RecoveryKeepsOthers(s, t);
    }
    assert o.w.live <= s.world.live by {
      RecoveryOnlyHangsUp(t, s.world);
    }
    assert Current(h.s, h.o.t) && h.o.t.id == t.id by {
      ReplaysStayCurrent(s, t);
    }
    OutcomeDecides(h, o, t);
  }

  lemma ReplaysStayCurrent(s: System, t: Transfer)
    requires Sound(s) && Current(s, t)
    ensures var h := Replays(s, t);
            h.o.verdict.Returned? ==> Current(h.s, h.o.t) && h.o.t.id == t.id
  {
    var h0 := Handled(s, Stay(t, s.world));
    var h1 := ReplayIn(h0, TransferredRole);
    var h2 := ReplayIn(h1, InitiatorRole);
    ReplayKeeps(h0, TransferredRole);
    ReplayKeeps(h1, InitiatorRole);
    ReplayKeeps(h2, RecipientRole);
    ReplayKeepsOthers(h0, TransferredRole);
    ReplayKeepsOthers(h1, InitiatorRole);
    ReplayKeepsOthers(h2, RecipientRole);
  }

  // ---- The whole store ----

  ghost predicate Recoverable(s: System, id: string)
  {
    id in s.store && s.store[id].id == id && HasThreeParties(s.store[id]) && Persistent(s.store[id].status)
  }

  lemma FewerLiveCannotGoOn(t: Transfer, w: World, w': World)
    requires CannotGoOn(t, w) && w'.live <= w.live
    ensures CannotGoOn(t, w')
  {
  }

  ghost predicate AllRecoverable(s: System, ids: seq<string>)
  {
    && (forall id :: id in ids ==> Recoverable(s, id))
    && (forall i, j :: 0 <= i < j < |ids| ==> ids[i] != ids[j])
  }

  ghost predicate StoreRecovered(s: System, s': System, ids: seq<string>)
  {
    && Sound(s') && s'.world.live <= s.world.live
    && (forall id :: id in ids && id in s.store && CannotGoOn(s.store[id], s.world) ==> id !in s'.store)
    && (forall id :: id !in ids ==> Get(s'.store, id) == Get(s.store, id))
  }

  lemma OneMoreTurn(s: System, front: seq<string>, last: string, before: System, after: System)
    requires StoreRecovered(s, before, front) && last !in front && Recoverable(s, last)
    requires TurnDone(before, after, s.store[last])
    ensures StoreRecovered(s, after, front + [last])
  {
    var ids, t := front + [last], s.store[last];
    if CannotGoOn(t, s.world) {
      FewerLiveCannotGoOn(t, s.world, before.world);
    }
    forall id | id in ids && id in s.store && CannotGoOn(s.store[id], s.world) ensures id !in after.store {
      if id != last {
        assert id in front && Get(after.store, id) == Get(before.store, id);
      }
    }
    forall id | id !in ids ensures Get(after.store, id) == Get(s.store, id) {
      assert last in ids;
    }
  }

  lemma RecoverEachStep(s: System, front: seq<string>, last: string)
    requires RecoverEach(s, front).ok && last in RecoverEach(s, front).s.store
    ensures RecoverEach(s, front + [last]) == RecoverIn(RecoverEach(s, front).s, RecoverEach(s, front).s.store[last])
  {
    assert (front + [last])[..|front + [last]| - 1] == front;
  }

  /** On any store of ringing, answered, blind or abandoned transfers and in any world, recovery raises
      nothing; every listed transfer that could not go on, in particular with two of its parties gone, leaves
      the store; records that are not listed are not touched. */
  lemma {:induction false} RecoveryOfTheStore(s: System, ids: seq<string>)
    requires Sound(s) && AllRecoverable(s, ids)
    ensures RecoverEach(s, ids).ok && StoreRecovered(s, RecoverEach(s, ids).s, ids)
    decreases |ids|
  {
    if ids != [] {
      var front, last := ids[..|ids| - 1], ids[|ids| - 1];
      assert forall id :: id in front ==> id in ids;
      RecoveryOfTheStore(s, front);
      assert last !in front && ids == front + [last] && Recoverable(s, last);
      LastTurn(s, front, last);
    }
  }

  lemma LastTurn(s: System, front: seq<string>, last: string)
    requires RecoverEach(s, front).ok && StoreRecovered(s, RecoverEach(s, front).s, front)
    requires last !in front && Recoverable(s, last)
    ensures RecoverEach(s, front + [last]).ok && StoreRecovered(s, RecoverEach(s, front + [last]).s, front + [last])
  {
    var before := RecoverEach(s, front).s;
    assert Get(before.store, last) == Get(s.store, last);
    RecoverEachStep(s, front, last);
    TurnRecovers(before, s.store[last]);
    OneMoreTurn(s, front, last, before, RecoverEach(s, front + [last]).s);
  }

  // ---- What stops the loop ----

  lemma {:induction false} FailureStays(s: System, ids: seq<string>, i: nat)
    requires i <= |ids| && !RecoverEach(s, ids[..i]).ok
    ensures RecoverEach(s, ids) == RecoverEach(s, ids[..i])
    decreases |ids|
  {
    if i == |ids| {
      assert ids[..i] == ids;
    } else {
      assert ids[..|ids| - 1][..i] == ids[..i];
      FailureStays(s, ids[..|ids| - 1], i);
    }
  }

  /** The loop after one more id. */
  lemma NextTurn(s: System, ids: seq<string>, i: nat)
    requires i < |ids| && RecoverEach(s, ids[..i]).ok
    ensures var before := RecoverEach(s, ids[..i]).s;
            RecoverEach(s, ids[..i + 1]) ==
            if ids[i] in before.store then RecoverIn(before, before.store[ids[i]]) else Result(before, false)
  {
    assert ids[..i + 1][..i] == ids[..i];
  }

  lemma RaisingReplayFails(s: System, t: Transfer)
    requires Recover(t, s.world).verdict.Raised?
    ensures !RecoverIn(s, t).ok
  {
    var h0, o0 := Handled(s, Stay(t, s.world)), Stay(t, s.world);
    var h1, o1 := ReplayIn(h0, TransferredRole), Replay(TransferredRole, o0);
    var h2, o2 := ReplayIn(h1, InitiatorRole), Replay(InitiatorRole, o1);
    StepAlike(h0, o0, TransferredRole);
    StepAlike(h1, o1, InitiatorRole);
    StepAlike(h2, o2, RecipientRole);
  }

  predicate AlikeOrFailed(h: Handled, o: Outcome)
  {
    if o.verdict.Returned? then Alike(h, o) else !h.o.verdict.Returned?
  }

  lemma StepAlike(h: Handled, o: Outcome, role: Role)
    requires AlikeOrFailed(h, o)
    ensures AlikeOrFailed(ReplayIn(h, role), Replay(role, o))
  {
  }

  /** One transfer that is still starting, with its parties there, stops the whole loop: recovery fails and the
      listed transfers after it keep their records, whatever they lost. */
  lemma StartingTransferStopsRecovery(s: System, ids: seq<string>, i: nat, id: string)
    requires Sound(s) && i < |ids| && AllRecoverable(s, ids[..i]) && ids[i] !in ids[..i] && ids[i] in s.store
    requires var t := s.store[ids[i]]; StillStarting(t.status) && t.recipientCall.None?
    requires var t, w := s.store[ids[i]], RecoverEach(s, ids[..i]).s.world;
             "" !in w.live && t.transferredCall in w.live && t.initiatorCall in w.live
    requires id !in ids[..i] && id != ids[i]
    ensures !RecoverEach(s, ids).ok && Get(RecoverEach(s, ids).s.store, id) == Get(s.store, id)
  {
    var t, before := s.store[ids[i]], RecoverEach(s, ids[..i]).s;
    RecoveryOfTheStore(s, ids[..i]);
    assert Get(before.store, ids[i]) == Get(s.store, ids[i]);
    assert s.store[ids[i]].id == ids[i];
    RecoveryRaisesExactly(t, before.world);
    RecoveryIsNeverMissing(t, before.world);
    RaisingReplayFails(before, t);
    RecoveryKeepsOthers(before, t);
    NextTurn(s, ids, i);
    FailureStays(s, ids, i + 1);
    assert Get(RecoverEach(s, ids[..i]).s.store, id) == Get(s.store, id);
  }

  lemma RecoveryIsNeverMissing(t: Transfer, w: World)
    requires StillStarting(t.status)
    ensures !Recover(t, w).verdict.Missing?
  {
    var o1 := Replay(TransferredRole, Stay(t, w));
    var o2 := Replay(InitiatorRole, o1);
    HangupIsNeverMissing(TransferredRole, t, w);
    HangupIsNeverMissing(InitiatorRole, o1.t, o1.w);
    HangupIsNeverMissing(RecipientRole, o2.t, o2.w);
  }

  lemma HangupIsNeverMissing(role: Role, t: Transfer, w: World)
    requires !t.status.Starting? && !t.status.Invalid?
    ensures var o := Fire(HangupOf(role), t, w);
            !o.verdict.Missing? && !o.t.status.Starting? && !o.t.status.Invalid?
  {
  }
}
