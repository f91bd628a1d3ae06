/** Locks, ends and statuses of all transfers over whole runs. */
module TransferRuns {
  import opened Wrappers
  import opened TransferRecord
  import opened TransferStates
  import opened TransferSafety
  import opened TransferParties
  import opened TransferSystem

  type History = TransferSystem.Run

  lemma StepKeeps(s: System, step: Step)
    requires Sound(s) && Enabled(s, step) && (step.Creates? ==> !Leaks(s, step.request))
    ensures Keeps(s, Apply(s, step))
  {
    match step
    case Creates(r) => CreateKeeps(s, r);
    case Handles(id, event) => TransitionKeeps(s, s.store[id], event);
    case Joins(id, event) => JoinKeeps(s, s.store[id], event);
    case Recovers(id) => RecoveryKeeps(s, s.store[id]);
    case Elsewhere(_) =>
  }

  lemma StepIsSound(s: System, step: Step)
    requires Sound(s) && Enabled(s, step)
    ensures Sound(Apply(s, step).s) && s.used <= Apply(s, step).s.used
  {
    if !(step.Creates? && Leaks(s, step.request)) {
      StepKeeps(s, step);
    }
  }

  lemma {:induction false} RunIsSound(run: History, i: nat)
    requires run.Valid() && i < |run.states|
    ensures Sound(run.states[i])
  {
    if i > 0 {
      RunIsSound(run, i - 1);
      assert run.IsStep(i - 1);
      StepIsSound(run.states[i - 1], run.steps[i - 1]);
    }
  }

  // ---- The lock ----

  ghost predicate NeverLeaks(run: History, n: nat)
    requires run.Valid() && n < |run.states|
  {
    forall i :: 0 <= i < n && run.steps[i].Creates? ==> !Leaks(run.states[i], run.steps[i].request)
  }

  ghost predicate AllOk(run: History, n: nat)
    requires run.Valid() && n < |run.states|
  {
    forall i :: 0 <= i < n ==> run.IsStep(i) && Apply(run.states[i], run.steps[i]).ok
  }

  /** As long as no `create` leaks its lock, the locked calls are initiators of persisted transfers. */
  lemma LockedMeansPersisted(run: History, n: nat)
    requires run.Valid() && n < |run.states| && NeverLeaks(run, n)
    ensures run.states[n].locked <= Initiators(run.states[n].store)
  {
    LocksStayOwned(run, n);
  }

  lemma LocksOwnedOnce(run: History, i: nat)
    requires run.Valid() && i < |run.steps| && LocksAreOwned(run.states[i])
    requires run.steps[i].Creates? ==> !Leaks(run.states[i], run.steps[i].request)
    ensures LocksAreOwned(run.states[i + 1])
  {
    RunIsSound(run, i);
    assert run.IsStep(i);
    StepKeeps(run.states[i], run.steps[i]);
  }

  lemma {:induction false} LocksStayOwned(run: History, n: nat)
    requires run.Valid() && n < |run.states| && NeverLeaks(run, n)
    ensures LocksAreOwned(run.states[n])
  {
    if n > 0 {
      LocksStayOwned(run, n - 1);
      LocksOwnedOnce(run, n - 1);
    }
  }

  lemma OkMeansNoLeak(s: System, step: Step)
    requires Enabled(s, step) && Apply(s, step).ok
    ensures step.Creates? ==> !Leaks(s, step.request)
  {
  }

  /** As long as nothing raises, the locked calls are exactly the initiators of the persisted transfers, and
      no two transfers have the same initiator. */
  lemma OneTransferPerInitiator(run: History, n: nat)
    requires run.Valid() && n < |run.states| && AllOk(run, n)
    ensures var s := run.states[n];
            && s.locked == Initiators(s.store)
            && forall a, b :: a in s.store && b in s.store && s.store[a].initiatorCall == s.store[b].initiatorCall
                ==> a == b
  {
    EachStaysOne(run, n);
    var s := run.states[n];
    forall c | c in Initiators(s.store) ensures c in s.locked {
      var id :| id in s.store && s.store[id].initiatorCall == c;
    }
  }

  lemma {:induction false} EachStaysOne(run: History, n: nat)
    requires run.Valid() && n < |run.states| && AllOk(run, n)
    ensures LocksAreOwned(run.states[n]) && OneEach(run.states[n])
  {
    if n > 0 {
      EachStaysOne(run, n - 1);
      RunIsSound(run, n - 1);
      assert run.IsStep(n - 1) && Apply(run.states[n - 1], run.steps[n - 1]).ok;
      OkMeansNoLeak(run.states[n - 1], run.steps[n - 1]);
      StepKeeps(run.states[n - 1], run.steps[n - 1]);
    }
  }

  /** A transition that raises leaves the record and drops the lock: the initiator of a persisted transfer
      can then start a second one. */
  lemma RaisingAllowsASecond(s: System, t: Transfer, event: Event, second: Request)
    requires Sound(s) && t.id in s.store && s.store[t.id] == t
    requires Fire(event, t, s.world).verdict.Raised?
    requires second.initiator == t.initiatorCall && second.id !in s.used
    ensures var raised := FireIn(s, t, event).s;
            && raised.store == s.store && t.initiatorCall !in raised.locked
            && (!Refused(raised, second) && !Vanishes(second) ==>
                  var both := Persist(Lock(raised, second), second);
                  && t.id != second.id && both.store[t.id].initiatorCall == both.store[second.id].initiatorCall)
  {
  }

  // ---- The end ----

  /** The end of a transfer is notified at most once, and it has been notified exactly when the transfer was
      created and its record is gone. */
  lemma EndedOnceWhenRemoved(run: History, i: nat, id: string)
    requires run.Valid() && i < |run.states|
    ensures var s := run.states[i];
            && s.ended[id] <= 1
            && (s.ended[id] == 1 <==> id in s.used && id !in s.store)
  {
    RunIsSound(run, i);
  }

  lemma {:induction false} IdsStayUsed(run: History, i: nat, j: nat)
    requires run.Valid() && i <= j < |run.states|
    ensures run.states[i].used <= run.states[j].used
  {
    if i < j {
      IdsStayUsed(run, i, j - 1);
      IdsStayUsedNow(run, j - 1);
    }
  }

  lemma IdsStayUsedNow(run: History, i: nat)
    requires run.Valid() && i < |run.steps|
    ensures run.states[i].used <= run.states[i + 1].used
  {
    RunIsSound(run, i);
    assert run.IsStep(i);
    StepIsSound(run.states[i], run.steps[i]);
  }

  // ---- The rank ----

  /** How the record of one id may change. */
  predicate Descended(before: Option<Transfer>, after: Option<Transfer>)
  {
    before.Some? && after.Some? ==>
      var t, t' := before.value, after.value;
      && SameTransfer(t, t') && (t.flow.Blind? ==> t'.flow.Blind?)
      && (t'.status == t.status || Rank(t'.status) < Rank(t.status))
  }

  /** The record of `id` is the same, went down, or was removed; it does not come back. */
  ghost predicate Goes(s: System, s': System, id: string)
  {
    && Descended(Get(s.store, id), Get(s'.store, id))
    && (id in s.used && id !in s.store ==> id !in s'.store)
  }

  lemma GoesTwice(a: System, b: System, c: System, id: string)
    requires Goes(a, b, id) && Goes(b, c, id) && RecordsAreSound(a) && a.used <= b.used
    ensures Goes(a, c, id)
  {
  }

  lemma TransitionGoes(s: System, t: Transfer, event: Event, id: string)
    requires Sound(s) && Current(s, t)
    ensures Goes(s, FireIn(s, t, event).s, id)
  {
    TransitionDescends(event, t, s.world);
  }

  lemma CompletionGoes(h: Handled, flow: Flow, id: string)
    requires Sound(h.s) && Current(h.s, h.o.t)
    ensures Goes(h.s, CompleteIfBlind(h, flow).s, id)
  {
    if flow.Blind? {
      TransitionGoes(h.s, h.o.t, Complete, id);
    }
  }

  lemma JoinGoes(s: System, t: Transfer, event: Event, id: string)
    requires Sound(s) && Current(s, t)
    ensures Goes(s, Join(s, t, event).s, id)
  {
    var h := FireIn(s, t, event);
    TransitionKeeps(s, t, event);
    TransitionGoes(s, t, event, id);
    if h.o.verdict.Returned? {
      CompletionGoes(h, h.o.t.flow, id);
      GoesTwice(s, h.s, Join(s, t, event).s, id);
    }
  }

  lemma ReplayGoes(h: Handled, role: Role, id: string)
    requires Sound(h.s) && (h.o.verdict.Returned? ==> Current(h.s, h.o.t))
    ensures Goes(h.s, ReplayIn(h, role).s, id)
  {
    if h.o.verdict.Returned? && Party(h.o.t, role) !in h.s.world.live {
      TransitionGoes(h.s, h.o.t, HangupOf(role), id);
    }
  }

  lemma RecoveryGoes(s: System, t: Transfer, id: string)
    requires Sound(s) && Current(s, t)
    ensures Goes(s, RecoverIn(s, t).s, id)
  {
    var h0 := Handled(s, Stay(t, s.world));
    var h1 := ReplayIn(h0, TransferredRole);
    var h2 := ReplayIn(h1, InitiatorRole);
    ReplayKeeps(h0, TransferredRole);
    ReplayKeeps(h1, InitiatorRole);
    ReplayGoes(h0, TransferredRole, id);
    ReplayGoes(h1, InitiatorRole, id);
    ReplayGoes(h2, RecipientRole, id);
    GoesTwice(s, h1.s, h2.s, id);
    GoesTwice(s, h2.s, ReplayIn(h2, RecipientRole).s, id);
  }

  lemma CreateGoes(s: System, r: Request, id: string)
    requires Sound(s) && r.id !in s.used
    ensures Goes(s, Create(s, r).s, id)
  {
    if !Refused(s, r) && !Vanishes(r) {
      var s1 := Persist(Lock(s, r), r);
      PersistKeeps(s, r);
      var started := FireIn(s1, FirstRecord(r), StartOf(r));
      TransitionKeeps(s1, FirstRecord(r), StartOf(r));
      TransitionGoes(s1, FirstRecord(r), StartOf(r), id);
      GoesTwice(s, s1, started.s, id);
      if started.o.verdict.Returned? {
        CompletionGoes(started, r.flow, id);
        GoesTwice(s, started.s, CompleteIfBlind(started, r.flow).s, id);
      }
    }
  }

  lemma StepGoes(s: System, step: Step, id: string)
    requires Sound(s) && Enabled(s, step)
    ensures Goes(s, Apply(s, step).s, id)
  {
    match step
    case Creates(r) => CreateGoes(s, r, id);
    case Handles(x, event) => TransitionGoes(s, s.store[x], event, id);
    case Joins(x, event) => JoinGoes(s, s.store[x], event, id);
    case Recovers(x) => RecoveryGoes(s, s.store[x], id);
    case Elsewhere(_) =>
  }

  lemma GoesOnce(run: History, i: nat, id: string)
    requires run.Valid() && i < |run.steps|
    ensures Goes(run.states[i], run.states[i + 1], id)
  {
    RunIsSound(run, i);
    assert run.IsStep(i);
    StepGoes(run.states[i], run.steps[i], id);
  }

  /** Over any run a transfer keeps its parties and its status, or its status goes strictly down; a blind
      transfer stays blind; and a transfer that is gone stays gone. */
  lemma {:induction false} TransfersOnlyDescend(run: History, i: nat, j: nat, id: string)
    requires run.Valid() && i <= j < |run.states|
    ensures Goes(run.states[i], run.states[j], id)
  {
    if i < j {
      TransfersOnlyDescend(run, i, j - 1, id);
      RunIsSound(run, i);
      IdsStayUsed(run, i, j - 1);
      GoesOnce(run, j - 1, id);
      GoesTwice(run.states[i], run.states[j - 1], run.states[j], id);
    }
  }

  /** How often the status of `id` changes between two moments, its removal included. */
  function StatusChanges(run: History, i: nat, j: nat, id: string): nat
    requires run.Valid() && i <= j < |run.states|
    decreases j - i
  {
    if i == j then 0
    else
      var before, after := Get(run.states[j - 1].store, id), Get(run.states[j].store, id);
      StatusChanges(run, i, j - 1, id) + if before.Some? && (after.None? || after.value.status != before.value.status)
          then 1 else 0
  }

  function RankAt(s: System, id: string): nat
  {
    if id in s.store then Rank(s.store[id].status) else 0
  }

  /** From the moment a transfer exists, its status changes at most seven times. */
  lemma {:induction false} FewStatusChanges(run: History, i: nat, j: nat, id: string)
    requires run.Valid() && i <= j < |run.states| && id in run.states[i].store
    ensures StatusChanges(run, i, j, id) + RankAt(run.states[j], id) <= RankAt(run.states[i], id) <= 7
  {
    if i < j {
      FewStatusChanges(run, i, j - 1, id);
      TransfersOnlyDescend(run, i, j - 1, id);
      IdsStayUsed(run, i, j - 1);
      UsedFromTheStart(run, i, id);
      RanksFall(run, j - 1, id);
    }
  }

  lemma UsedFromTheStart(run: History, i: nat, id: string)
    requires run.Valid() && i < |run.states| && id in run.states[i].store
    ensures id in run.states[i].used
  {
    RunIsSound(run, i);
  }

  lemma RanksFall(run: History, i: nat, id: string)
    requires run.Valid() && i < |run.steps| && id in run.states[i].used
    ensures StatusChanges(run, i, i + 1, id) + RankAt(run.states[i + 1], id) <= RankAt(run.states[i], id) <= 7
  {
    RunIsSound(run, i);
    GoesOnce(run, i, id);
    if id in run.states[i].store {
      SoundRecord(run.states[i], id);
    }
  }

  lemma SoundRecord(s: System, id: string)
    requires RecordsAreSound(s) && id in s.store
    ensures 0 < Rank(s.store[id].status) <= 7
  {
  }
}
