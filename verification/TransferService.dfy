/** `TransfersService`, the handlers of `TransfersStasis` and the transition wrapper, over the objects. */
module TransferService {
  import opened Wrappers
  import opened TransferRecord
  import opened TransferStates
  import opened TransferSafety
  import opened TransferParties
  import opened TransferSystem
  import opened TransferRestart
  import opened TransferObjects
  import opened TransferBridges
  import opened TransferMoves

  lemma MissingDoesNothing(event: Event, t: Transfer, w: World)
    requires Fire(event, t, w).verdict.Missing?
    ensures Fire(event, t, w) == Outcome(Missing, t, w, [])
  {
  }

  /** The hangup event that a channel of a transfer stands for. */
  function HangupBy(t: Transfer, channel: string): Event
  {
    if channel == t.transferredCall then TransferredHangup
    else if channel == t.initiatorCall then InitiatorHangup
    else RecipientHangup
  }

  /** The transfer was under way until this channel, one of its parties, left. */
  predicate LeftBy(t: Transfer, w: World, channel: string, now: World)
  {
    UnderWay(t, w) && t.Involves(channel) && channel in w.live && now == Leave(w, channel)
  }

  function RoleBy(t: Transfer, channel: string): Role
  {
    if channel == t.transferredCall then TransferredRole
    else if channel == t.initiatorCall then InitiatorRole
    else RecipientRole
  }

  /** The parties and the record are as the protocol prescribes when the party leaves that the channel is. */
  predicate IsPrescribed(t: Transfer, channel: string, store: map<string, Transfer>, w: World)
  {
    var scene := Prescribed(Leaves(RoleBy(t, channel)), t.status);
    && Present(t, w, scene.present)
    && if scene.status.Ended? then t.id !in store && Settled(t.(status := Ended), w)
       else t.id in store && Follows(scene, store[t.id], w)
  }

  lemma HangupIsPrescribed(s: System, t: Transfer, w: World, channel: string)
    requires LeftBy(t, w, channel, s.world)
    ensures var d := Handle(s, t, HangupBy(t, channel));
            d.ok && IsPrescribed(t, channel, d.s.store, d.s.world)
  {
    ProtocolIsFollowed(Leaves(RoleBy(t, channel)), t, w);
    TransitionDescends(HangupBy(t, channel), t, s.world);
  }

  class TransfersService {
    const ari: Ari
    const lock: TransferLock
    var transfers: map<string, Transfer>
    ghost var used: set<string>
    ghost var ended: multiset<string>

    ghost function View(): System
      reads this, ari, lock
    {
      System(transfers, lock.lockedCalls, ari.View(), used, ended)
    }

    constructor ()
      ensures View() == NOTHING_YET && fresh(ari) && fresh(lock)
    {
      ari := new Ari();
      lock := new TransferLock();
      transfers, used, ended := map[], {}, multiset{};
    }

    /** The `transition` wrapper: an exception releases the lock and leaves the record; otherwise the record
        is written, or removed at the end. */
    method Transition(state: TransferState, event: Event) returns (v: Verdict)
      requires state.ari == ari && state.lock == lock
      modifies this, state, ari, lock
      ensures var h := FireIn(old(View()), old(state.transfer), event);
              View() == h.s && v == h.o.verdict && state.transfer == h.o.t
    {
      ghost var s, t := View(), state.transfer;
      state.notes := [];
      TransitionDescends(event, t, s.world);
      v := state.Dispatch(event);
      if v.Missing? {
        MissingDoesNothing(event, t, s.world);
        return;
      }
      if v.Raised? {
        lock.Release(state.transfer.initiatorCall);
        return;
      }
      if state.transfer.status.Ended? {
        transfers := transfers - {state.transfer.id};
        if EndedNote in state.notes {
          ended := ended + multiset{state.transfer.id};
        }
      } else {
        transfers := transfers[state.transfer.id := state.transfer];
      }
    }

    /** One event for a persisted transfer: a hangup, an answer, `complete` or `cancel`. */
    method HandleEvent(id: string, event: Event) returns (ok: bool)
      requires id in transfers
      modifies this, ari, lock
      ensures Result(View(), ok) == Handle(old(View()), old(transfers)[id], event)
    {
      var state := new TransferState(ari, lock, transfers[id]);
      var v := Transition(state, event);
      ok := v.Returned?;
    }

    method CompleteBlind(state: TransferState, flow: Flow) returns (ok: bool)
      requires state.ari == ari && state.lock == lock
      modifies this, state, ari, lock
      ensures forall o: Outcome :: o.t == old(state.transfer) ==>
                Result(View(), ok) == CompleteIfBlind(Handled(old(View()), o), flow)
    {
      if flow.Attended? {
        return true;
      }
      var v := Transition(state, Complete);
      ok := v.Returned?;
    }

    method CreateTransfer(id: string, event: Event) returns (ok: bool)
      requires id in transfers
      modifies this, ari, lock
      ensures Result(View(), ok) == Join(old(View()), old(transfers)[id], event)
    {
      ghost var h := FireIn(View(), transfers[id], event);
      var state := new TransferState(ari, lock, transfers[id]);
      var v := Transition(state, event);
      if !v.Returned? {
        return false;
      }
      assert Handled(View(), h.o) == h;
      ok := CompleteBlind(state, state.transfer.flow);
    }

    method CreateNew(r: Request) returns (ok: bool)
      modifies this, ari, lock
      ensures Result(View(), ok) == Create(old(View()), r)
    {
      ghost var s := View();
      if r.transferred !in ari.live || r.initiator !in ari.live || !r.answers.extensionExists {
        return true;
      }
      var acquired := lock.Acquire(r.initiator);
      if !acquired {
        assert lock.lockedCalls == s.locked;
        return true;
      }
      ari.Forget(r.answers.leaveEarly);
      assert View() == Lock(s, r);
      if !r.answers.hasUser || r.initiator in r.answers.leaveEarly || r.transferred in r.answers.leaveEarly {
        return false;
      }
      var t := FirstRecord(r);
      transfers := transfers[r.id := t];
      used := used + {r.id};
      ari.Forget(r.answers.leaveLate);
      assert View() == Persist(Lock(s, r), r);
      ghost var h := FireIn(View(), t, StartOf(r));
      var state := new TransferState(ari, lock, t);
      var v := Transition(state, StartOf(r));
      if !v.Returned? {
        lock.Release(r.initiator);
        return false;
      }
      assert Handled(View(), h.o) == h;
      ok := CompleteBlind(state, r.flow);
    }

    method ReplayHangup(state: TransferState, role: Role, v: Verdict) returns (v': Verdict)
      requires state.ari == ari && state.lock == lock
      modifies this, state, ari, lock
      ensures forall o: Outcome :: o.t == old(state.transfer) && o.verdict == v ==>
                var h := ReplayIn(Handled(old(View()), o), role);
                View() == h.s && v' == h.o.verdict && state.transfer == h.o.t
    {
      if !v.Returned? || Party(state.transfer, role) in ari.live {
        return v;
      }
      v' := Transition(state, HangupOf(role));
    }

    method RecoverTransfer(id: string) returns (ok: bool)
      requires id in transfers
      modifies this, ari, lock
      ensures Result(View(), ok) == RecoverIn(old(View()), old(transfers)[id])
    {
      var state := new TransferState(ari, lock, transfers[id]);
      ghost var h0 := Handled(View(), Stay(transfers[id], ari.View()));
      ghost var h1 := ReplayIn(h0, TransferredRole);
      ghost var h2 := ReplayIn(h1, InitiatorRole);
      var v1 := ReplayHangup(state, TransferredRole, Returned);
      assert Handled(View(), h1.o) == h1;
      var v2 := ReplayHangup(state, InitiatorRole, v1);
      assert Handled(View(), h2.o) == h2;
      var v3 := ReplayHangup(state, RecipientRole, v2);
      ok := v3.Returned?;
    }

    method ProcessLostHangups(ids: seq<string>) returns (ok: bool)
      modifies this, ari, lock
      ensures Result(View(), ok) == RecoverEach(old(View()), ids)
    {
      ghost var s := View();
      var i := 0;
      assert RecoverEach(s, ids[..0]) == Result(s, true);
      while i < |ids|
        invariant 0 <= i <= |ids|
        invariant RecoverEach(s, ids[..i]) == Result(View(), true)
      {
        NextTurn(s, ids, i);
        if ids[i] !in transfers {
          FailureStays(s, ids, i + 1);
          return false;
        }
        ok := RecoverTransfer(ids[i]);
        assert RecoverEach(s, ids[..i + 1]) == Result(View(), ok);
        if !ok {
          FailureStays(s, ids, i + 1);
          return;
        }
        i := i + 1;
      }
      assert ids[..i] == ids;
      ok := true;
    }

    /** The hangup event of a channel goes to a transfer that it has a role in, as the hangup of the party that the
        channel is.  If that transfer was under way until the channel left, the handler succeeds, and the parties are
        where the protocol puts them, with the record in the state it prescribes, or removed at the end. */
    method Hangup(channel: string) returns (found: Option<string>, ok: bool)
      modifies this, ari, lock
      ensures found.None? <==> forall id :: id in old(transfers) ==> !old(transfers)[id].Involves(channel)
      ensures found.None? ==> ok && View() == old(View())
      ensures found.Some? ==>
                && found.value in old(transfers)
                && var t := old(transfers)[found.value];
                   t.Involves(channel) && Result(View(), ok) == Handle(old(View()), t, HangupBy(t, channel))
      ensures found.Some? && old(transfers)[found.value].id == found.value ==>
                forall w :: LeftBy(old(transfers)[found.value], w, channel, old(ari.View())) ==>
                  ok && IsPrescribed(old(transfers)[found.value], channel, transfers, ari.View())
    {
      var left := transfers.Keys;
      while left != {}
        invariant left <= transfers.Keys
        invariant forall id :: id in transfers.Keys - left ==> !transfers[id].Involves(channel)
        decreases left
      {
        var id :| id in left;
        if transfers[id].Involves(channel) {
          ghost var s, t := View(), transfers[id];
          RoleIsOfItsParty(t, channel);
          ok := HandleEvent(id, HangupOf(transfers[id].Role(channel).value));
          forall w | LeftBy(t, w, channel, s.world) ensures ok && IsPrescribed(t, channel, transfers, ari.View()) {
            HangupIsPrescribed(s, t, w, channel);
          }
          return Some(id), ok;
        }
        left := left - {id};
      }
      return None, true;
    }

    method CleanLoneChannel(bridge: string)
      modifies ari
      ensures ari.View() == CleanBridge(transfers, old(ari.View()), bridge)
    {
      if bridge !in ari.existing {
        return;
      }
      var snapshot := set c | c in ari.at && ari.at[c] == bridge;
      if bridge in ari.marks && ari.marks[bridge] != "" && ari.marks[bridge] in transfers {
        return;
      }
      if |snapshot| == 1 {
        ari.Forget(snapshot);
        ari.DestroyBridgeOf(bridge);
      }
    }
  }
}
