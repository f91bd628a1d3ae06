/** All transfers together: the persisted records, the lock set that prevents a second transfer of the same
    initiator, and the handlers as sequences of transitions. */
module TransferSystem {
  import opened Wrappers
  import opened TransferRecord
  import opened TransferStates
  import opened TransferSafety
  import opened TransferParties
  import opened TransferRecovery

  /** `used` are the ids ever given to a transfer, `ended` counts the end notices. */
  datatype System = System(
    store: map<string, Transfer>,
    locked: set<string>,
    world: World,
    used: set<string>,
    ended: multiset<string>)

  const NOTHING_YET := System(map[], {}, World({}, map[], {}, {}, {}, Bridges({}, map[])), {}, multiset{})

  // ---- One transition, with the writing of the record and the release of the lock ----

  datatype Handled = Handled(s: System, o: Outcome)

  function FireIn(s: System, t: Transfer, event: Event): Handled
  {
    var o := Fire(event, t, s.world);
    Handled(Commit(s, t, o), o)
  }

  function Commit(s: System, t: Transfer, o: Outcome): System
  {
    match o.verdict
    case Missing => s
    case Raised => s.(world := o.w, locked := s.locked - {t.initiatorCall})
    case Returned =>
      if !o.t.status.Ended? then s.(world := o.w, store := s.store[t.id := o.t])
      else if EndedNote in o.notes then
        s.(world := o.w, store := s.store - {t.id}, locked := s.locked - {t.initiatorCall},
            ended := s.ended + multiset{t.id})
      else s.(world := o.w, store := s.store - {t.id})
  }

  // ---- Handlers ----

  /** What a client asks for in `create`, and what happens while it runs: who leaves after the first lookup
      and who leaves after the record is written. */
  datatype Request = Request(
    id: string,
    initiatorUuid: string,
    tenant: string,
    transferred: string,
    initiator: string,
    flow: Flow,
    answers: Answers)

  datatype Answers = Answers(
    extensionExists: bool,
    hasUser: bool,
    inStasis: bool,
    leaveEarly: set<string>,
    leaveLate: set<string>,
    redirected: bool,
    recipient: Option<string>)

  predicate Refused(s: System, r: Request)
  {
    r.transferred !in s.world.live || r.initiator !in s.world.live || !r.answers.extensionExists
        || r.initiator in s.locked
  }

  /** After the lock is taken: the initiator has no user any more, or the transferred party is gone when it is
      asked whether it is in stasis. */
  predicate Vanishes(r: Request)
  {
    !r.answers.hasUser || r.initiator in r.answers.leaveEarly || r.transferred in r.answers.leaveEarly
  }

  function FirstRecord(r: Request): Transfer
  {
    Transfer(r.id, r.initiatorUuid, r.tenant, r.transferred, r.initiator, None, r.id,
             if r.answers.inStasis then Ready else NonStasis, r.flow)
  }

  function Lock(s: System, r: Request): System
  {
    s.(locked := s.locked + {r.initiator}, world := LeaveAll(s.world, r.answers.leaveEarly))
  }

  function Persist(s: System, r: Request): System
  {
    s.(store := s.store[r.id := FirstRecord(r)], used := s.used + {r.id},
        world := LeaveAll(s.world, r.answers.leaveLate))
  }

  function StartOf(r: Request): Event { Start(r.answers.hasUser, r.answers.redirected, r.answers.recipient) }

  /** The state after a handler, and whether it ran to its end: no transition raised and no lock was leaked. */
  datatype Result = Result(s: System, ok: bool)

  function Create(s: System, r: Request): Result
  {
    if Refused(s, r) then Result(s, true)
    else if Vanishes(r) then Result(Lock(s, r), false)
    else
      var started := FireIn(Persist(Lock(s, r), r), FirstRecord(r), StartOf(r));
      if !started.o.verdict.Returned? then Result(started.s.(locked := started.s.locked - {r.initiator}), false)
      else CompleteIfBlind(started, r.flow)
  }

  function CompleteIfBlind(h: Handled, flow: Flow): Result
  {
    if flow.Attended? then Result(h.s, true)
    else
      var completed := FireIn(h.s, h.o.t, Complete);
      Result(completed.s, completed.o.verdict.Returned?)
  }

  function Handle(s: System, t: Transfer, event: Event): Result
  {
    var h := FireIn(s, t, event);
    Result(h.s, h.o.verdict.Returned?)
  }

  /** `create_transfer`: a party joined stasis; a transfer that is blind by then completes at once. */
  function Join(s: System, t: Transfer, event: Event): Result
  {
    var joined := FireIn(s, t, event);
    if !joined.o.verdict.Returned? then Result(joined.s, false) else CompleteIfBlind(joined, joined.o.t.flow)
  }

  /** One check of `process_lost_hangups`. */
  function ReplayIn(h: Handled, role: Role): Handled
  {
    if !h.o.verdict.Returned? || Party(h.o.t, role) in h.s.world.live then h else FireIn(h.s, h.o.t, HangupOf(role))
  }

  function Replays(s: System, t: Transfer): Handled
  {
    ReplayIn(ReplayIn(ReplayIn(Handled(s, Stay(t, s.world)), TransferredRole), InitiatorRole), RecipientRole)
  }

  function RecoverIn(s: System, t: Transfer): Result
  {
    var h := Replays(s, t);
    Result(h.s, h.o.verdict.Returned?)
  }

  // ---- Steps and runs ----

  datatype Step =
    | Creates(request: Request)
    | Handles(id: string, event: Event)
    | Joins(id: string, event: Event)
    | Recovers(id: string)
    | Elsewhere(world: World)

  predicate Enabled(s: System, step: Step)
  {
    match step
    case Creates(r) => r.id !in s.used
    case Handles(id, _) => id in s.store
    case Joins(id, event) => id in s.store && (event.TransferredJoined? || event.InitiatorJoined?)
    case Recovers(id) => id in s.store
    case Elsewhere(_) => true
  }

  function Apply(s: System, step: Step): Result
    requires Enabled(s, step)
  {
    match step
    case Creates(r) => Create(s, r)
    case Handles(id, event) => Handle(s, s.store[id], event)
    case Joins(id, event) => Join(s, s.store[id], event)
    case Recovers(id) => RecoverIn(s, s.store[id])
    case Elsewhere(w) => Result(s.(world := w), true)
  }

  datatype Run = Run(states: seq<System>, steps: seq<Step>)
  {
    predicate Valid()
    {
      && |states| == |steps| + 1 && states[0] == NOTHING_YET
      && forall i :: 0 <= i < |steps| ==> IsStep(i)
    }

    predicate IsStep(i: nat)
      requires |states| == |steps| + 1 && i < |steps|
    {
      Enabled(states[i], steps[i]) && states[i + 1] == Apply(states[i], steps[i]).s
    }
  }

  // ---- The invariants ----

  ghost function Initiators(store: map<string, Transfer>): set<string>
  {
    set id | id in store :: store[id].initiatorCall
  }

  ghost predicate RecordsAreSound(s: System)
  {
    forall id :: id in s.store ==> id in s.used && s.store[id].id == id && Rank(s.store[id].status) > 0
  }

  /** Of every id ever used, either the record is there and no end was notified, or the other way round. */
  ghost predicate EndsAreSound(s: System)
  {
    forall id :: s.ended[id] == if id in s.used && id !in s.store then 1 else 0
  }

  /** Every locked call is the initiator of a persisted transfer. */
  ghost predicate LocksAreOwned(s: System)
  {
    forall c :: c in s.locked ==> c in Initiators(s.store)
  }

  /** The initiator of every persisted transfer is locked, and no two transfers share one. */
  ghost predicate OneEach(s: System)
  {
    && (forall id :: id in s.store ==> s.store[id].initiatorCall in s.locked)
    && (forall a, b :: a in s.store && b in s.store && s.store[a].initiatorCall == s.store[b].initiatorCall ==> a == b)
  }

  /** The state object works on the persisted record, or on one that has just ended. */
  ghost predicate Current(s: System, t: Transfer)
  {
    if t.id in s.store then s.store[t.id] == t else t.status.Ended? && t.id in s.used
  }

  ghost predicate Sound(s: System) { RecordsAreSound(s) && EndsAreSound(s) }

  lemma CommitIsSound(s: System, t: Transfer, o: Outcome)
    requires Sound(s) && Current(s, t) && Descends(t, o)
    ensures Sound(Commit(s, t, o))
    ensures o.verdict.Returned? ==> Current(Commit(s, t, o), o.t)
  {
  }

  lemma CommitKeepsLocksOwned(s: System, t: Transfer, o: Outcome)
    requires RecordsAreSound(s) && Current(s, t) && Descends(t, o)
    requires LocksAreOwned(s)
    ensures LocksAreOwned(Commit(s, t, o))
  {
    var s' := Commit(s, t, o);
    forall c | c in s'.locked ensures c in Initiators(s'.store) {
      assert c in Initiators(s.store);
      var id :| id in s.store && s.store[id].initiatorCall == c;
      assert id in s'.store && s'.store[id].initiatorCall == c;
    }
  }

  lemma CommitKeepsOneEach(s: System, t: Transfer, o: Outcome)
    requires RecordsAreSound(s) && Current(s, t) && Descends(t, o)
    requires OneEach(s) && o.verdict.Returned?
    ensures OneEach(Commit(s, t, o))
  {
  }

  /** What becomes of the records and locks, whatever the handler. */
  ghost predicate Keeps(s: System, r: Result)
  {
    && Sound(r.s)
    && (LocksAreOwned(s) ==> LocksAreOwned(r.s))
    && (OneEach(s) && r.ok ==> OneEach(r.s))
    && s.used <= r.s.used
  }

  lemma TransitionKeeps(s: System, t: Transfer, event: Event)
    requires Sound(s) && Current(s, t)
    ensures var h := FireIn(s, t, event);
            Keeps(s, Result(h.s, h.o.verdict.Returned?)) && (h.o.verdict.Returned? ==> Current(h.s, h.o.t))
  {
    var o := Fire(event, t, s.world);
    TransitionDescends(event, t, s.world);
    CommitIsSound(s, t, o);
    if LocksAreOwned(s) {
      CommitKeepsLocksOwned(s, t, o);
    }
    if OneEach(s) && o.verdict.Returned? {
      CommitKeepsOneEach(s, t, o);
    }
  }

  lemma CompletionKeeps(h: Handled, flow: Flow)
    requires Sound(h.s) && Current(h.s, h.o.t)
    ensures Keeps(h.s, CompleteIfBlind(h, flow))
  {
    if flow.Blind? {
      TransitionKeeps(h.s, h.o.t, Complete);
    }
  }

  lemma JoinKeeps(s: System, t: Transfer, event: Event)
    requires Sound(s) && Current(s, t)
    ensures Keeps(s, Join(s, t, event))
  {
    var h := FireIn(s, t, event);
    TransitionKeeps(s, t, event);
    if h.o.verdict.Returned? {
      CompletionKeeps(h, h.o.t.flow);
    }
  }

  lemma ReplayKeeps(h: Handled, role: Role)
    requires Sound(h.s) && (h.o.verdict.Returned? ==> Current(h.s, h.o.t))
    ensures var h' := ReplayIn(h, role);
            && Keeps(h.s, Result(h'.s, h'.o.verdict.Returned?))
            && (h'.o.verdict.Returned? ==> h.o.verdict.Returned? && Current(h'.s, h'.o.t))
  {
    if h.o.verdict.Returned? && Party(h.o.t, role) !in h.s.world.live {
      TransitionKeeps(h.s, h.o.t, HangupOf(role));
    }
  }

  lemma RecoveryKeeps(s: System, t: Transfer)
    requires Sound(s) && Current(s, t)
    ensures Keeps(s, RecoverIn(s, t))
  {
    var h0 := Handled(s, Stay(t, s.world));
    var h1 := ReplayIn(h0, TransferredRole);
    var h2 := ReplayIn(h1, InitiatorRole);
    ReplayKeeps(h0, TransferredRole);
    ReplayKeeps(h1, InitiatorRole);
    ReplayKeeps(h2, RecipientRole);
  }

  // ---- create ----

  lemma PersistKeeps(s: System, r: Request)
    requires Sound(s) && r.id !in s.used && r.initiator !in s.locked
    ensures var s' := Persist(Lock(s, r), r);
            && Keeps(s, Result(s', true)) && Current(s', FirstRecord(r))
  {
    var s' := Persist(Lock(s, r), r);
    if LocksAreOwned(s) {
      forall c | c in s'.locked ensures c in Initiators(s'.store) {
        if c == r.initiator {
          assert s'.store[r.id].initiatorCall == c;
        } else {
          assert c in Initiators(s.store);
          var id :| id in s.store && s.store[id].initiatorCall == c;
          assert id in s'.store && s'.store[id].initiatorCall == c;
        }
      }
    }
  }

  /** `create` goes wrong between taking the lock and writing the record. */
  predicate Leaks(s: System, r: Request)
  {
    !Refused(s, r) && Vanishes(r)
  }

  lemma CreateKeeps(s: System, r: Request)
    requires Sound(s) && r.id !in s.used && !Leaks(s, r)
    ensures Keeps(s, Create(s, r))
  {
    if !Refused(s, r) {
      var s1 := Persist(Lock(s, r), r);
      PersistKeeps(s, r);
      var started := FireIn(s1, FirstRecord(r), StartOf(r));
      TransitionKeeps(s1, FirstRecord(r), StartOf(r));
      if started.o.verdict.Returned? {
        CompletionKeeps(started, r.flow);
      }
    }
  }

  /** When `create` leaks the lock, nothing else changes: no record, no end, and the initiator stays locked,
      so that every later `create` for it is refused.  Locks are then no longer owned, unless an earlier
      transfer of this initiator is still persisted. */
  lemma CreateLeaksTheLock(s: System, r: Request, later: Request)
    requires Sound(s) && LocksAreOwned(s) && r.id !in s.used && later.initiator == r.initiator
    ensures Leaks(s, r) ==>
              var s' := Create(s, r).s;
              && s'.store == s.store && s'.locked == s.locked + {r.initiator} && Refused(s', later)
    ensures LocksAreOwned(Create(s, r).s) <==> !Leaks(s, r) || r.initiator in Initiators(s.store)
  {
    if !Leaks(s, r) {
      CreateKeeps(s, r);
    }
  }
}
