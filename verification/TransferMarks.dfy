/** Over whole runs the bridge of every persisted transfer is marked, so that the handler that empties lone
    bridges never touches it. */
module TransferMarks {
  import opened TransferRecord
  import opened TransferStates
  import opened TransferSafety
  import opened TransferParties
  import opened TransferSystem
  import opened TransferRuns
  import opened TransferBridges

  /** The bridge of a transfer has the id of the transfer, and names the transfer when it exists. */
  ghost predicate AllMarked(s: System)
  {
    forall id :: id in s.store ==> s.store[id].bridgeId == id && Marked(s.store[id], s.world)
  }

  /** Nobody else makes or marks a bridge under the id of a transfer, and a new id is new among the bridges too. */
  ghost predicate Discreet(s: System, step: Step)
  {
    match step
    case Elsewhere(w) => forall b :: b in w.bridges.existing && b in s.used ==> SameMarks(s.world, w, b)
    case Creates(r) => r.id !in s.world.bridges.existing
    case _ => true
  }

  lemma TransitionMarks(s: System, t: Transfer, event: Event)
    requires Sound(s) && Current(s, t) && AllMarked(s) && t.bridgeId == t.id
    ensures var h := FireIn(s, t, event);
            AllMarked(h.s) && h.o.t.bridgeId == h.o.t.id
  {
    var h := FireIn(s, t, event);
    TransitionDescends(event, t, s.world);
    forall id | id in h.s.store ensures h.s.store[id].bridgeId == id && Marked(h.s.store[id], h.s.world) {
      assert id in s.store && s.store[id].id == id;
      TransitionsKeepBridgesMarked(event, t, s.world, s.store[id]);
    }
  }

  lemma CompletionMarks(h: Handled, flow: Flow)
    requires Sound(h.s) && Current(h.s, h.o.t) && AllMarked(h.s) && h.o.t.bridgeId == h.o.t.id
    ensures AllMarked(CompleteIfBlind(h, flow).s)
  {
    if flow.Blind? {
      TransitionMarks(h.s, h.o.t, Complete);
    }
  }

  lemma JoinMarks(s: System, t: Transfer, event: Event)
    requires Sound(s) && Current(s, t) && AllMarked(s) && t.bridgeId == t.id
    ensures AllMarked(Join(s, t, event).s)
  {
    var h := FireIn(s, t, event);
    TransitionKeeps(s, t, event);
    TransitionMarks(s, t, event);
    if h.o.verdict.Returned? {
      CompletionMarks(h, h.o.t.flow);
    }
  }

  lemma ReplayMarks(h: Handled, role: Role)
    requires Sound(h.s) && AllMarked(h.s) && (h.o.verdict.Returned? ==> Current(h.s, h.o.t))
        && h.o.t.bridgeId == h.o.t.id
    ensures var h' := ReplayIn(h, role);
            AllMarked(h'.s) && h'.o.t.bridgeId == h'.o.t.id
  {
    if h.o.verdict.Returned? && Party(h.o.t, role) !in h.s.world.live {
      TransitionMarks(h.s, h.o.t, HangupOf(role));
    }
  }

  lemma RecoveryMarks(s: System, t: Transfer)
    requires Sound(s) && Current(s, t) && AllMarked(s) && t.bridgeId == t.id
    ensures AllMarked(RecoverIn(s, t).s)
  {
    var h0 := Handled(s, Stay(t, s.world));
    var h1 := ReplayIn(h0, TransferredRole);
    var h2 := ReplayIn(h1, InitiatorRole);
    ReplayKeeps(h0, TransferredRole);
    ReplayKeeps(h1, InitiatorRole);
    ReplayMarks(h0, TransferredRole);
    ReplayMarks(h1, InitiatorRole);
    ReplayMarks(h2, RecipientRole);
  }

  lemma PersistMarks(s: System, r: Request)
    requires Sound(s) && r.id !in s.used && AllMarked(s) && r.id !in s.world.bridges.existing
    ensures AllMarked(Lock(s, r)) && AllMarked(Persist(Lock(s, r), r))
  {
  }

  lemma CreateMarks(s: System, r: Request)
    requires Sound(s) && r.id !in s.used && AllMarked(s) && r.id !in s.world.bridges.existing
    ensures AllMarked(Create(s, r).s)
  {
    PersistMarks(s, r);
    if !Refused(s, r) && !Vanishes(r) {
      var s1 := Persist(Lock(s, r), r);
      PersistKeeps(s, r);
      var started := FireIn(s1, FirstRecord(r), StartOf(r));
      TransitionKeeps(s1, FirstRecord(r), StartOf(r));
      TransitionMarks(s1, FirstRecord(r), StartOf(r));
      if started.o.verdict.Returned? {
        CompletionMarks(started, r.flow);
      }
    }
  }

  lemma ElsewhereMarks(s: System, w: World)
    requires Sound(s) && AllMarked(s) && Discreet(s, Step.Elsewhere(w))
    ensures AllMarked(s.(world := w))
  {
    forall id | id in s.store ensures Marked(s.store[id], w) {
      assert Marked(s.store[id], s.world) && id in s.used;
    }
  }

  lemma StepMarks(s: System, step: Step)
    requires Sound(s) && Enabled(s, step) && AllMarked(s) && Discreet(s, step)
    ensures AllMarked(Apply(s, step).s)
  {
    match step
    case Creates(r) => CreateMarks(s, r);
    case Handles(id, event) => TransitionMarks(s, s.store[id], event);
    case Joins(id, event) => JoinMarks(s, s.store[id], event);
    case Recovers(id) => RecoveryMarks(s, s.store[id]);
    case Elsewhere(w) => ElsewhereMarks(s, w);
  }

  /** As long as nobody else uses the ids of transfers for bridges, every persisted transfer owns the bridge of
      its id, and that bridge is marked whenever it exists. */
  lemma {:induction false} BridgesStayMarked(run: History, n: nat)
    requires run.Valid() && n < |run.states| && forall i :: 0 <= i < n ==> Discreet(run.states[i], run.steps[i])
    ensures AllMarked(run.states[n])
  {
    if n > 0 {
      BridgesStayMarked(run, n - 1);
      RunIsSound(run, n - 1);
      assert run.IsStep(n - 1);
      StepMarks(run.states[n - 1], run.steps[n - 1]);
    }
  }

  /** So the cleaner never touches the bridge of a persisted transfer, whatever it saw when it looked. */
  lemma PersistedMeansSpared(run: History, n: nat, id: string, snapshot: set<string>)
    requires run.Valid() && n < |run.states| && forall i :: 0 <= i < n ==> Discreet(run.states[i], run.steps[i])
    requires id in run.states[n].store && id != "" && id in run.states[n].world.bridges.existing
    ensures var s := run.states[n];
            CleanWith(snapshot, s.store, s.world, s.store[id].bridgeId) == s.world
  {
    BridgesStayMarked(run, n);
    RunIsSound(run, n);
    assert Marked(run.states[n].store[id], run.states[n].world);
  }
}
