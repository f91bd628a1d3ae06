/** `create` takes the lock of the initiator before it has the lock of the state machine: other handlers can run
    between the lock and the record.  What then holds of the locked calls. */
module TransferCreates {
  import opened TransferRecord
  import opened TransferStates
  import opened TransferSafety
  import opened TransferParties
  import opened TransferRecovery
  import opened TransferSystem

  /** The transfers, and the requests that hold the lock of their initiator but have no record yet. */
  datatype Fine = Fine(s: System, flight: map<string, Request>)

  datatype FineStep =
    | Begins(request: Request)
    | GivesUp(id: string)
    | Finishes(id: string)
    | HandlesNow(id: string, event: Event)
    | JoinsNow(id: string, event: Event)
    | RecoversNow(id: string)
    | Elsewhere(world: World)

  /** The rest of `create` once it has the lock of the state machine: write the record and start. */
  function Finish(s: System, r: Request): Result
  {
    var started := FireIn(Persist(s, r), FirstRecord(r), StartOf(r));
    if !started.o.verdict.Returned? then Result(started.s.(locked := started.s.locked - {r.initiator}), false)
    else CompleteIfBlind(started, r.flow)
  }

  /** When nothing runs in between, the two parts are `create`. */
  lemma CreateIsBoth(s: System, r: Request)
    requires !Refused(s, r)
    ensures Create(s, r) == if Vanishes(r) then Result(Lock(s, r), false) else Finish(Lock(s, r), r)
  {
  }

  predicate CanPerform(f: Fine, step: FineStep)
  {
    match step
    case Begins(r) => r.id !in f.s.used && r.id !in f.flight
    case GivesUp(id) => id in f.flight && Vanishes(f.flight[id])
    case Finishes(id) => id in f.flight && !Vanishes(f.flight[id])
    case HandlesNow(id, _) => id in f.s.store
    case JoinsNow(id, event) => id in f.s.store && (event.TransferredJoined? || event.InitiatorJoined?)
    case RecoversNow(id) => id in f.s.store
    case Elsewhere(_) => true
  }

  datatype Did = Did(f: Fine, ok: bool)

  function Put(r: Result, flight: map<string, Request>): Did { Did(Fine(r.s, flight), r.ok) }

  function Perform(f: Fine, step: FineStep): Did
    requires CanPerform(f, step)
  {
    match step
    case Begins(r) => if Refused(f.s, r) then Did(f, true) else Did(Fine(Lock(f.s, r), f.flight[r.id := r]), true)
    case GivesUp(id) => Did(Fine(f.s, f.flight - {id}), false)
    case Finishes(id) => Put(Finish(f.s, f.flight[id]), f.flight - {id})
    case HandlesNow(id, event) => Put(Handle(f.s, f.s.store[id], event), f.flight)
    case JoinsNow(id, event) => Put(Join(f.s, f.s.store[id], event), f.flight)
    case RecoversNow(id) => Put(RecoverIn(f.s, f.s.store[id]), f.flight)
    case Elsewhere(w) => Did(Fine(f.s.(world := w), f.flight), true)
  }

  datatype FineRun = FineRun(states: seq<Fine>, steps: seq<FineStep>)
  {
    predicate Valid()
    {
      && |states| == |steps| + 1 && states[0] == Fine(NOTHING_YET, map[])
      && forall i :: 0 <= i < |steps| ==> IsStep(i)
    }

    predicate IsStep(i: nat)
      requires |states| == |steps| + 1 && i < |steps|
    {
      CanPerform(states[i], steps[i]) && states[i + 1] == Perform(states[i], steps[i]).f
    }
  }

  // ---- The records that requests in flight are going to have ----

  function FirstRecords(flight: map<string, Request>): map<string, Transfer>
  {
    map id | id in flight :: FirstRecord(flight[id])
  }

  /** The transfers as if those records were written already. */
  function Foreseen(f: Fine): System
  {
    f.s.(store := f.s.store + FirstRecords(f.flight), used := f.s.used + f.flight.Keys)
  }

  ghost predicate FlightIsSound(f: Fine)
  {
    && (forall id :: id in f.flight ==> f.flight[id].id == id && id !in f.s.used && id !in f.s.store)
    && Sound(Foreseen(f))
  }

  /** The handled transfer is not one in flight, so the step is the same as if they had records. */
  lemma CommitForesees(s: System, flight: map<string, Request>, t: Transfer, o: Outcome)
    requires t.id !in flight
    ensures Foreseen(Fine(Commit(s, t, o), flight)) == Commit(Foreseen(Fine(s, flight)), t, o)
  {
    var records := FirstRecords(flight);
    assert (s.store + records)[t.id := o.t] == s.store[t.id := o.t] + records;
    assert (s.store + records) - {t.id} == (s.store - {t.id}) + records;
  }

  lemma TransitionForesees(s: System, flight: map<string, Request>, t: Transfer, event: Event)
    requires t.id !in flight
    ensures Foreseen(Fine(FireIn(s, t, event).s, flight)) == FireIn(Foreseen(Fine(s, flight)), t, event).s
    ensures FireIn(s, t, event).o == FireIn(Foreseen(Fine(s, flight)), t, event).o && FireIn(s, t, event).o.t.id == t.id
  {
    CommitForesees(s, flight, t, Fire(event, t, s.world));
    TransitionDescends(event, t, s.world);
  }

  lemma CompletionForesees(h: Handled, flight: map<string, Request>, flow: Flow)
    requires h.o.t.id !in flight
    ensures var g := Handled(Foreseen(Fine(h.s, flight)), h.o);
            && Foreseen(Fine(CompleteIfBlind(h, flow).s, flight)) == CompleteIfBlind(g, flow).s
            && CompleteIfBlind(h, flow).ok == CompleteIfBlind(g, flow).ok
  {
    if flow.Blind? {
      TransitionForesees(h.s, flight, h.o.t, Complete);
    }
  }

  lemma JoinForesees(s: System, flight: map<string, Request>, t: Transfer, event: Event)
    requires t.id !in flight
    ensures var v := Foreseen(Fine(s, flight));
            Foreseen(Fine(Join(s, t, event).s, flight)) == Join(v, t, event).s
                && Join(s, t, event).ok == Join(v, t, event).ok
  {
    var joined := FireIn(s, t, event);
    TransitionForesees(s, flight, t, event);
    if joined.o.verdict.Returned? {
      CompletionForesees(joined, flight, joined.o.t.flow);
    }
  }

  lemma ReplayForesees(h: Handled, flight: map<string, Request>, role: Role)
    requires h.o.t.id !in flight
    ensures var g := Handled(Foreseen(Fine(h.s, flight)), h.o);
            && Handled(Foreseen(Fine(ReplayIn(h, role).s, flight)), ReplayIn(h, role).o) == ReplayIn(g, role)
            && ReplayIn(h, role).o.t.id == h.o.t.id
  {
    if h.o.verdict.Returned? && Party(h.o.t, role) !in h.s.world.live {
      TransitionForesees(h.s, flight, h.o.t, HangupOf(role));
    }
  }

  lemma RecoveryForesees(s: System, flight: map<string, Request>, t: Transfer)
    requires t.id !in flight
    ensures var v := Foreseen(Fine(s, flight));
            Foreseen(Fine(RecoverIn(s, t).s, flight)) == RecoverIn(v, t).s && RecoverIn(s, t).ok == RecoverIn(v, t).ok
  {
    var h0 := Handled(s, Stay(t, s.world));
    var h1 := ReplayIn(h0, TransferredRole);
    var h2 := ReplayIn(h1, InitiatorRole);
    ReplayForesees(h0, flight, TransferredRole);
    ReplayForesees(h1, flight, InitiatorRole);
    ReplayForesees(h2, flight, RecipientRole);
  }

  // ---- What every step keeps ----

  /** A handler of a persisted transfer keeps what it keeps without requests in flight. */
  lemma HandlerKeeps(f: Fine, step: FineStep)
    requires FlightIsSound(f) && CanPerform(f, step) && (step.HandlesNow? || step.JoinsNow? || step.RecoversNow?)
    ensures Keeps(Foreseen(f), Result(Foreseen(Perform(f, step).f), Perform(f, step).ok))
        && Perform(f, step).f.flight == f.flight
  {
    var t, v := f.s.store[step.id], Foreseen(f);
    assert v.store[step.id] == t && t.id == step.id;
    match step
    case HandlesNow(_, event) =>
      TransitionForesees(f.s, f.flight, t, event);
      TransitionKeeps(v, t, event);
    case JoinsNow(_, event) =>
      JoinForesees(f.s, f.flight, t, event);
      JoinKeeps(v, t, event);
    case RecoversNow(_) =>
      RecoveryForesees(f.s, f.flight, t);
      RecoveryKeeps(v, t);
  }

  /** What is persisted is in the foreseen store, and the other way round but for the requests in flight. */
  lemma HandlerKeepsFlight(f: Fine, step: FineStep)
    requires FlightIsSound(f) && CanPerform(f, step) && (step.HandlesNow? || step.JoinsNow? || step.RecoversNow?)
    ensures FlightIsSound(Perform(f, step).f)
  {
    HandlerKeeps(f, step);
    var t, f' := f.s.store[step.id], Perform(f, step).f;
    forall id | id in f.flight ensures id !in f'.s.used && id !in f'.s.store {
      HandlerLeavesOthers(f.s, t, step, id);
    }
  }

  lemma FireLeavesOthers(s: System, t: Transfer, event: Event, id: string)
    requires id != t.id
    ensures var h := FireIn(s, t, event);
            h.s.used == s.used && (id in h.s.store <==> id in s.store) && h.o.t.id == t.id
  {
    TransitionDescends(event, t, s.world);
  }

  lemma HandlerLeavesOthers(s: System, t: Transfer, step: FineStep, id: string)
    requires id != t.id && id !in s.used && id !in s.store && t.id in s.store && s.store[t.id] == t
    requires (step.HandlesNow? || step.JoinsNow? || step.RecoversNow?) && step.id == t.id
        && CanPerform(Fine(s, map[]), step)
    ensures var s' := Perform(Fine(s, map[]), step).f.s; id !in s'.used && id !in s'.store
  {
    match step
    case HandlesNow(_, event) => FireLeavesOthers(s, t, event, id);
    case JoinsNow(_, event) =>
      var joined := FireIn(s, t, event);
      FireLeavesOthers(s, t, event, id);
      FireLeavesOthers(joined.s, joined.o.t, Complete, id);
    case RecoversNow(_) =>
      var h0 := Handled(s, Stay(t, s.world));
      var h1 := ReplayIn(h0, TransferredRole);
      var h2 := ReplayIn(h1, InitiatorRole);
      FireLeavesOthers(s, t, HangupOf(TransferredRole), id);
      FireLeavesOthers(h1.s, h1.o.t, HangupOf(InitiatorRole), id);
      FireLeavesOthers(h2.s, h2.o.t, HangupOf(RecipientRole), id);
  }

  lemma BeginForesees(f: Fine, r: Request)
    requires FlightIsSound(f) && CanPerform(f, Begins(r)) && !Refused(f.s, r)
    ensures var v, f' := Foreseen(f), Perform(f, Begins(r)).f;
            Foreseen(f') == Persist(Lock(v, r), r).(world := f'.s.world)
  {
    OneMoreRecord(f.s.store, f.flight, r);
    assert f.s.used + (f.flight[r.id := r]).Keys == f.s.used + f.flight.Keys + {r.id};
  }

  lemma OneMoreRecord(store: map<string, Transfer>, flight: map<string, Request>, r: Request)
    ensures store + FirstRecords(flight[r.id := r]) == (store + FirstRecords(flight))[r.id := FirstRecord(r)]
  {
    assert FirstRecords(flight[r.id := r]) == FirstRecords(flight)[r.id := FirstRecord(r)];
  }

  lemma BeginKeeps(f: Fine, r: Request)
    requires FlightIsSound(f) && CanPerform(f, Begins(r))
    ensures var d := Perform(f, Begins(r)); FlightIsSound(d.f) && Keeps(Foreseen(f), Result(Foreseen(d.f), d.ok))
  {
    if !Refused(f.s, r) {
      BeginForesees(f, r);
      BeginKeepsForeseen(Foreseen(f), r, Perform(f, Begins(r)).f.s.world);
    }
  }

  lemma BeginKeepsForeseen(v: System, r: Request, w: World)
    requires Sound(v) && r.id !in v.used && r.initiator !in v.locked
    ensures Keeps(v, Result(Persist(Lock(v, r), r).(world := w), true))
  {
    PersistKeeps(v, r);
    WorldDoesNotMatter(Persist(Lock(v, r), r), w);
  }

  /** Records and locks are sound in whatever world. */
  lemma WorldDoesNotMatter(s: System, w: World)
    ensures Sound(s) ==> Sound(s.(world := w))
    ensures LocksAreOwned(s) ==> LocksAreOwned(s.(world := w))
    ensures OneEach(s) ==> OneEach(s.(world := w))
  {
  }

  /** When the record is written, it is the foreseen one. */
  lemma PersistForesees(f: Fine, id: string)
    requires FlightIsSound(f) && id in f.flight
    ensures var r, v := f.flight[id], Foreseen(f);
            Foreseen(Fine(Persist(f.s, r), f.flight - {id})) == v.(world := LeaveAll(f.s.world, r.answers.leaveLate))
    ensures Foreseen(f).store[id] == FirstRecord(f.flight[id])
  {
    var r, rest := f.flight[id], f.flight - {id};
    assert (f.s.store[id := FirstRecord(r)]) + FirstRecords(rest) == f.s.store + FirstRecords(f.flight);
    assert f.s.used + {id} + rest.Keys == f.s.used + f.flight.Keys;
  }

  lemma FinishForesees(f: Fine, id: string)
    requires FlightIsSound(f) && CanPerform(f, Finishes(id))
    ensures var r, d := f.flight[id], Perform(f, Finishes(id));
            var v := Foreseen(f).(world := LeaveAll(f.s.world, r.answers.leaveLate));
            var started := FireIn(v, FirstRecord(r), StartOf(r));
            && d.ok == (started.o.verdict.Returned? && CompleteIfBlind(started, r.flow).ok)
            && Foreseen(d.f) ==
                 if !started.o.verdict.Returned? then started.s.(locked := started.s.locked - {r.initiator})
                 else CompleteIfBlind(started, r.flow).s
  {
    var r, rest := f.flight[id], f.flight - {id};
    var s1 := Persist(f.s, r);
    PersistForesees(f, id);
    TransitionForesees(s1, rest, FirstRecord(r), StartOf(r));
    var started := FireIn(s1, FirstRecord(r), StartOf(r));
    if started.o.verdict.Returned? {
      CompletionForesees(started, rest, r.flow);
    }
  }

  lemma FinishKeeps(f: Fine, id: string)
    requires FlightIsSound(f) && CanPerform(f, Finishes(id))
    ensures var d := Perform(f, Finishes(id)); Keeps(Foreseen(f), Result(Foreseen(d.f), d.ok))
  {
    var r := f.flight[id];
    var v := Foreseen(f).(world := LeaveAll(f.s.world, r.answers.leaveLate));
    FinishForesees(f, id);
    PersistForesees(f, id);
    WorldDoesNotMatter(Foreseen(f), v.world);
    var started := FireIn(v, FirstRecord(r), StartOf(r));
    TransitionKeeps(v, FirstRecord(r), StartOf(r));
    if started.o.verdict.Returned? {
      CompletionKeeps(started, r.flow);
    }
  }

  lemma FinishLeavesOthers(s: System, r: Request, x: string)
    requires x != r.id && x !in s.used && x !in s.store
    ensures x !in Finish(s, r).s.used && x !in Finish(s, r).s.store
  {
    var s1 := Persist(s, r);
    var started := FireIn(s1, FirstRecord(r), StartOf(r));
    FireLeavesOthers(s1, FirstRecord(r), StartOf(r), x);
    FireLeavesOthers(started.s, started.o.t, Complete, x);
  }

  lemma FinishKeepsFlight(f: Fine, id: string)
    requires FlightIsSound(f) && CanPerform(f, Finishes(id))
    ensures FlightIsSound(Perform(f, Finishes(id)).f)
  {
    FinishKeeps(f, id);
    var f' := Perform(f, Finishes(id)).f;
    forall x | x in f'.flight ensures x !in f'.s.used && x !in f'.s.store {
      FinishLeavesOthers(f.s, f.flight[id], x);
    }
  }

  /** What a step keeps, unless it gives up between the lock and the record. */
  lemma StepKeepsFlight(f: Fine, step: FineStep)
    requires FlightIsSound(f) && CanPerform(f, step) && !step.GivesUp?
    ensures var d := Perform(f, step); FlightIsSound(d.f) && Keeps(Foreseen(f), Result(Foreseen(d.f), d.ok))
  {
    match step
    case Begins(r) => BeginKeeps(f, r);
    case Finishes(id) =>
      FinishKeeps(f, id);
      FinishKeepsFlight(f, id);
    case Elsewhere(w) => WorldDoesNotMatter(Foreseen(f), w);
    case _ =>
      HandlerKeeps(f, step);
      HandlerKeepsFlight(f, step);
  }

  // ---- Runs ----

  ghost function InFlight(f: Fine): set<string> { set id | id in f.flight :: f.flight[id].initiator }

  lemma InitiatorsForeseen(f: Fine)
    requires FlightIsSound(f)
    ensures Initiators(Foreseen(f).store) == Initiators(f.s.store) + InFlight(f)
  {
    var all := Foreseen(f).store;
    forall c | c in Initiators(f.s.store) + InFlight(f) ensures c in Initiators(all) {
      if c in InFlight(f) {
        var id :| id in f.flight && f.flight[id].initiator == c;
        assert all[id].initiatorCall == c;
      } else {
        var id :| id in f.s.store && f.s.store[id].initiatorCall == c;
        assert all[id] == f.s.store[id];
      }
    }
    forall c | c in Initiators(all) ensures c in Initiators(f.s.store) + InFlight(f) {
      var id :| id in all && all[id].initiatorCall == c;
      assert id in f.flight ==> f.flight[id].initiator == c;
    }
  }

  ghost predicate NobodyGaveUp(run: FineRun, n: nat)
    requires run.Valid() && n < |run.states|
  {
    forall i :: 0 <= i < n ==> !run.steps[i].GivesUp?
  }

  ghost predicate NothingFailed(run: FineRun, n: nat)
    requires run.Valid() && n < |run.states|
  {
    forall i :: 0 <= i < n ==> run.IsStep(i) && Perform(run.states[i], run.steps[i]).ok
  }

  ghost predicate Owned(f: Fine) { FlightIsSound(f) && LocksAreOwned(Foreseen(f)) }

  lemma NothingIsOwned()
    ensures Owned(Fine(NOTHING_YET, map[])) && OneEach(Foreseen(Fine(NOTHING_YET, map[])))
  {
    assert Foreseen(Fine(NOTHING_YET, map[])) == NOTHING_YET;
  }

  lemma OwnedOnce(f: Fine, step: FineStep)
    requires Owned(f) && CanPerform(f, step) && !step.GivesUp?
    ensures Owned(Perform(f, step).f)
    ensures OneEach(Foreseen(f)) && Perform(f, step).ok ==> OneEach(Foreseen(Perform(f, step).f))
  {
    StepKeepsFlight(f, step);
  }

  lemma {:induction false} FlightStaysSound(run: FineRun, n: nat)
    requires run.Valid() && n < |run.states| && NobodyGaveUp(run, n)
    ensures Owned(run.states[n])
  {
    if n == 0 {
      NothingIsOwned();
    } else {
      FlightStaysSound(run, n - 1);
      assert run.IsStep(n - 1) && !run.steps[n - 1].GivesUp?;
      OwnedOnce(run.states[n - 1], run.steps[n - 1]);
    }
  }

  /** As long as no `create` gives up after it took the lock: every locked call is the initiator of a persisted
      transfer or of a `create` that is between its lock and its record, whatever other handlers run there. */
  lemma LockedMeansPersistedOrInFlight(run: FineRun, n: nat)
    requires run.Valid() && n < |run.states| && NobodyGaveUp(run, n)
    ensures run.states[n].s.locked <= Initiators(run.states[n].s.store) + InFlight(run.states[n])
  {
    FlightStaysSound(run, n);
    InitiatorsForeseen(run.states[n]);
  }

  lemma {:induction false} EachStaysOneInFlight(run: FineRun, n: nat)
    requires run.Valid() && n < |run.states| && NothingFailed(run, n)
    ensures Owned(run.states[n]) && OneEach(Foreseen(run.states[n]))
  {
    if n == 0 {
      NothingIsOwned();
    } else {
      EachStaysOneInFlight(run, n - 1);
      assert run.IsStep(n - 1) && Perform(run.states[n - 1], run.steps[n - 1]).ok;
      OwnedOnce(run.states[n - 1], run.steps[n - 1]);
    }
  }

  /** As long as nothing raises and nobody gives up: the locked calls are exactly the initiators of the persisted
      transfers and of the requests in flight, and no two of these have the same initiator. */
  lemma OneTransferOrRequestEach(run: FineRun, n: nat)
    requires run.Valid() && n < |run.states| && NothingFailed(run, n)
    ensures var f := run.states[n];
            && f.s.locked == Initiators(f.s.store) + InFlight(f)
            && (forall a, b ::
                  a in f.s.store && b in f.s.store && f.s.store[a].initiatorCall == f.s.store[b].initiatorCall ==>
                    a == b)
            && (forall a, b :: a in f.flight && b in f.flight && f.flight[a].initiator == f.flight[b].initiator
                   ==> a == b)
            && Initiators(f.s.store) !! InFlight(f)
  {
    EachStaysOneInFlight(run, n);
    InitiatorsForeseen(run.states[n]);
    ForeseenAreOneEach(run.states[n]);
  }

  lemma ForeseenAreOneEach(f: Fine)
    requires FlightIsSound(f) && OneEach(Foreseen(f))
    ensures Initiators(Foreseen(f).store) <= f.s.locked
    ensures forall a, b ::
              a in f.s.store && b in f.s.store && f.s.store[a].initiatorCall == f.s.store[b].initiatorCall ==> a == b
    ensures forall a, b :: a in f.flight && b in f.flight && f.flight[a].initiator == f.flight[b].initiator ==> a == b
    ensures Initiators(f.s.store) !! InFlight(f)
  {
    var all := Foreseen(f).store;
    assert forall id :: id in f.flight ==> id in all && all[id].initiatorCall == f.flight[id].initiator;
    assert forall id :: id in f.s.store ==> id in all && all[id] == f.s.store[id];
    forall c | c in Initiators(f.s.store) ensures c !in InFlight(f) {
      var a :| a in f.s.store && f.s.store[a].initiatorCall == c;
      assert forall b :: b in f.flight ==> b != a && all[b].initiatorCall != all[a].initiatorCall;
    }
  }
}
