/** The collection of relocates, the check against duplicates, and the objects that change in place. */
module RelocateCollection {
  import opened Wrappers
  import opened Relocates

  // ---- All relocates together ----

  /** Every relocate ever created, and the uuids of those in the collection. */
  datatype System = System(created: map<string, Relocate>, collection: set<string>)

  datatype Request = Request(uuid: string, relocated: string, initiator: string, completions: Completions)

  datatype Step = Creates(request: Request) | Fires(uuid: string, event: Event)

  function NewRelocate(q: Request): Relocate
  {
    Relocate(q.uuid, Ready, q.relocated, q.initiator, None, q.completions, Nothing, {}, {})
  }

  ghost predicate Enabled(s: System, step: Step)
  {
    match step
    case Creates(q) => q.uuid !in s.created
    case Fires(uuid, event) => uuid in s.created
  }

  /** `find_by_channel` over the collection. */
  ghost predicate Busy(s: System, channel: string)
  {
    exists uuid :: uuid in s.collection && uuid in s.created && s.created[uuid].Has(channel)
  }

  ghost function Apply(s: System, step: Step): System
    requires Enabled(s, step)
  {
    match step
    case Creates(q) =>
      if Busy(s, q.initiator) then s
      else System(s.created[q.uuid := NewRelocate(q)], s.collection + {q.uuid})
    case Fires(uuid, event) =>
      var r := Fire(s.created[uuid], event).r;
      System(s.created[uuid := r], if r.state.Ended? && !s.created[uuid].state.Ended? then s.collection - {uuid}
          else s.collection)
  }

  ghost predicate CollectionIsExact(s: System)
  {
    && s.collection <= s.created.Keys
    && forall uuid :: uuid in s.created ==> (uuid in s.collection <==> !s.created[uuid].state.Ended?)
  }

  ghost predicate RelocatesAreSound(s: System)
  {
    forall uuid :: uuid in s.created ==> Sound(s.created[uuid]) && s.created[uuid].uuid == uuid
  }

  predicate SameInitiator(s: System, a: string, b: string)
  {
    a in s.created && b in s.created && s.created[a].initiator == s.created[b].initiator
  }

  /** No two live relocates have the same initiator. */
  ghost predicate InitiatorsDiffer(s: System)
  {
    forall a, b :: a in s.collection && b in s.collection && SameInitiator(s, a, b) ==> a == b
  }

  ghost predicate Inv(s: System)
  {
    RelocatesAreSound(s) && CollectionIsExact(s) && InitiatorsDiffer(s)
  }

  lemma StepKeepsInv(s: System, step: Step)
    requires Inv(s) && Enabled(s, step)
    ensures Inv(Apply(s, step))
  {
    match step
    case Creates(q) =>
      var s' := Apply(s, step);
      forall uuid | uuid in s'.created ensures Sound(s'.created[uuid]) && s'.created[uuid].uuid == uuid {
      }
    case Fires(uuid, event) => FireIsSound(s.created[uuid], event);
  }

  datatype Run = Run(states: seq<System>, steps: seq<Step>)
  {
    ghost predicate Valid()
    {
      && |states| == |steps| + 1 && states[0] == System(map[], {})
      && forall i :: 0 <= i < |steps| ==> IsStep(i)
    }

    ghost predicate IsStep(i: nat)
      requires |states| == |steps| + 1 && i < |steps|
    {
      Enabled(states[i], steps[i]) && states[i + 1] == Apply(states[i], steps[i])
    }
  }

  /** Over any run: a relocate is in the collection exactly while it has not ended, live relocates have
      different initiators, and every relocate satisfies what one relocate satisfies. */
  lemma {:induction false} CollectionHoldsTheLive(run: Run, i: nat)
    requires run.Valid() && i < |run.states|
    ensures Inv(run.states[i])
  {
    if i > 0 {
      CollectionHoldsTheLive(run, i - 1);
      assert run.IsStep(i - 1);
      StepKeepsInv(run.states[i - 1], run.steps[i - 1]);
    }
  }

  /** How a relocate goes on: the same channels, and only states of strictly lower rank. */
  lemma {:induction false} RelocatesOnlyDescend(run: Run, i: nat, j: nat, uuid: string)
    requires run.Valid() && i <= j < |run.states| && uuid in run.states[i].created
    ensures uuid in run.states[j].created && Moves(run.states[i].created[uuid], run.states[j].created[uuid])
  {
    if i < j {
      RelocatesOnlyDescend(run, i, j - 1, uuid);
      CollectionHoldsTheLive(run, j - 1);
      assert run.IsStep(j - 1);
      StepDescends(run.states[j - 1], run.steps[j - 1], uuid);
    }
  }

  lemma StepDescends(s: System, step: Step, uuid: string)
    requires Inv(s) && Enabled(s, step) && uuid in s.created
    ensures uuid in Apply(s, step).created && Moves(s.created[uuid], Apply(s, step).created[uuid])
  {
    if step.Fires? {
      FireIsSound(s.created[step.uuid], step.event);
    }
  }

  // ---- The objects ----

  class RelocateObject {
    const uuid: string
    const relocated: string
    const initiator: string
    const completions: Completions
    var state: State
    var recipient: Option<string>
    var events: Log
    var bridge: set<string>
    var hungUp: set<string>

    ghost function View(): Relocate
      reads this
    {
      Relocate(uuid, state, relocated, initiator, recipient, completions, events, bridge, hungUp)
    }

    constructor (q: Request)
      ensures View() == NewRelocate(q)
    {
      uuid, relocated, initiator, completions := q.uuid, q.relocated, q.initiator, q.completions;
      state, recipient, events, bridge, hungUp := Ready, None, Nothing, {}, {};
    }

    predicate IsOn(channel: string)
      reads this
    {
      channel == relocated || channel == initiator || recipient == Some(channel)
    }

    method PublishEvent(e: Published)
      modifies this`events
      ensures View() == Publish(old(View()), e)
    {
      events := Then(events, e);
    }

    method Become(s: State)
      modifies this`state, this`events
      ensures View() == SetState(old(View()), s)
    {
      state := s;
      if s.Ended? {
        PublishEvent(EndPublished);
      }
    }

    method HangupChannel(channel: Option<string>)
      modifies this`hungUp
      ensures View() == Relocates.HangupOf(old(View()), channel)
    {
      if channel.Some? {
        hungUp := hungUp + {channel.value};
      }
    }

    method BridgeBoth(bridging: Bridging)
      modifies this`bridge, this`events
      ensures View() == BridgeThem(old(View()), bridging)
    {
      if bridging.NoBridge? || bridging.NobodyIn? {
        return;
      }
      if recipient.Some? {
        bridge := bridge + {recipient.value};
      }
      if bridging.BothIn? {
        bridge := bridge + {relocated};
        PublishEvent(Completed);
      } else {
        assert bridge == old(View()).bridge + (if recipient.Some? then {recipient.value} else {});
      }
    }

    method CompleteIt(inStasis: Option<bool>, bridging: Bridging) returns (v: Verdict)
      modifies this
      ensures Outcome(v, View()) == CompleteNow(old(View()), inStasis, bridging)
    {
      if inStasis.None? {
        return Raised;
      }
      if inStasis.value {
        BridgeBoth(bridging);
        HangupChannel(Some(initiator));
        Become(Ended);
      } else {
        Become(WaitingForRelocated);
      }
      v := Returned;
    }

    method EndIt(channel: Option<string>) returns (v: Verdict)
      modifies this
      ensures Outcome(v, View()) == EndWith(old(View()), channel)
    {
      HangupChannel(channel);
      Become(Ended);
      v := Returned;
    }

    method OnReady(event: Event) returns (v: Verdict)
      modifies this
      ensures Outcome(v, View()) == InReady(old(View()), event)
    {
      if !event.Initiate? {
        return Raised;
      }
      match event.originated {
        case NewChannel(channel) =>
          recipient := Some(channel);
          Become(RecipientRing);
          PublishEvent(Initiated);
          v := Returned;
        case HttpError =>
          Become(Ended);
          PublishEvent(EndPublished);
          v := Raised;
        case OtherError =>
          v := Raised;
      }
    }

    method OnRecipientRing(event: Event) returns (v: Verdict)
      modifies this
      ensures Outcome(v, View()) == InRecipientRing(old(View()), event)
    {
      match event {
        case RelocatedHangup => v := EndIt(recipient);
        case InitiatorHangup => v := EndIt(recipient);
        case RecipientHangup => v := EndIt(None);
        case Cancel => v := EndIt(recipient);
        case RecipientAnswered(inStasis, bridging) =>
          PublishEvent(Answered);
          if completions.answer {
            v := CompleteIt(inStasis, bridging);
          } else if completions.api {
            Become(WaitingForCompletion);
            v := Returned;
          } else {
            v := Raised;
          }
        case _ => v := Raised;
      }
    }

    method OnWaitingForCompletion(event: Event) returns (v: Verdict)
      modifies this
      ensures Outcome(v, View()) == InWaitingForCompletion(old(View()), event)
    {
      match event {
        case RelocatedHangup => v := EndIt(recipient);
        case InitiatorHangup => v := EndIt(recipient);
        case RecipientHangup => v := EndIt(None);
        case Cancel => v := EndIt(recipient);
        case Complete(inStasis, bridging) => v := CompleteIt(inStasis, bridging);
        case _ => v := Raised;
      }
    }

    method OnWaitingForRelocated(event: Event) returns (v: Verdict)
      modifies this
      ensures Outcome(v, View()) == InWaitingForRelocated(old(View()), event)
    {
      match event {
        case RelocatedAnswered(bridging) =>
          BridgeBoth(bridging);
          v := EndIt(None);
        case RelocatedHangup => v := EndIt(recipient);
        case InitiatorHangup => v := Returned;
        case RecipientHangup => v := EndIt(Some(relocated));
        case Complete(_, _) => v := Returned;
        case _ => v := Raised;
      }
    }

    method On(event: Event) returns (v: Verdict)
      modifies this
      ensures Outcome(v, View()) == Fire(old(View()), event)
    {
      match state {
        case Ready => v := OnReady(event);
        case RecipientRing => v := OnRecipientRing(event);
        case WaitingForCompletion => v := OnWaitingForCompletion(event);
        case WaitingForRelocated => v := OnWaitingForRelocated(event);
        case Ended =>
          v := if event.RecipientHangup? || event.InitiatorHangup? || event.RelocatedHangup? || event.Complete?
              then Returned else Raised;
      }
    }
  }

  /** The channel is one of the three of a relocate. */
  predicate HasRole(r: RelocateObject, channel: string)
    reads r
  {
    r.relocated == channel || r.initiator == channel || (r.recipient.Some? && r.recipient.value == channel)
  }

  class Collection {
    var relocates: map<string, RelocateObject>
    // Every relocate that was ever added, also those that are gone from the collection.
    ghost var created: map<string, RelocateObject>

    ghost predicate Valid()
      reads this, created.Values
    {
      && relocates.Keys <= created.Keys
      && (forall uuid :: uuid in relocates ==> created[uuid] == relocates[uuid])
      && (forall uuid :: uuid in created ==> created[uuid].uuid == uuid)
    }

    ghost function View(): System
      reads this, created.Values
    {
      System(map uuid | uuid in created :: created[uuid].View(), relocates.Keys)
    }

    constructor ()
      ensures Valid() && View() == System(map[], {})
    {
      relocates, created := map[], map[];
    }

    method FindByChannel(channel: string) returns (found: bool)
      requires Valid()
      ensures found <==> Busy(View(), channel)
      ensures found <==> exists uuid :: uuid in relocates && HasRole(relocates[uuid], channel)
    {
      found := false;
      var left := relocates.Keys;
      while left != {}
        invariant left <= relocates.Keys
        invariant forall uuid :: uuid in relocates.Keys - left ==> !View().created[uuid].Has(channel)
        decreases left
      {
        var uuid :| uuid in left;
        assert View().created[uuid] == relocates[uuid].View();
        if relocates[uuid].IsOn(channel) {
          return true;
        }
        left := left - {uuid};
      }
    }

    /** The part of `create` under the lock against duplicates. */
    method Add(q: Request) returns (added: bool)
      requires Valid() && q.uuid !in created
      modifies this
      ensures Valid()
      ensures added <==> !Busy(old(View()), q.initiator)
      ensures added <==> old(forall uuid :: uuid in relocates ==> !HasRole(relocates[uuid], q.initiator))
      ensures View() == Apply(old(View()), Creates(q))
    {
      ghost var before := View();
      var busy := FindByChannel(q.initiator);
      if busy {
        return false;
      }
      var r := new RelocateObject(q);
      relocates := relocates[q.uuid := r];
      created := created[q.uuid := r];
      assert View().created == before.created[q.uuid := NewRelocate(q)];
      added := true;
    }

    /** An event under the lock of the relocate; the collection hears of the end. */
    method Deliver(r: RelocateObject, event: Event) returns (v: Verdict)
      requires Valid() && r.uuid in created && created[r.uuid] == r
      modifies this`relocates, r
      ensures Valid()
      ensures v == Fire(old(r.View()), event).verdict
      ensures View() == Apply(old(View()), Fires(r.uuid, event))
    {
      ghost var before, was := View(), r.View();
      var over := r.state.Ended?;
      v := r.On(event);
      if r.state.Ended? && !over {
        relocates := relocates - {r.uuid};
      }
      assert View().created == before.created[r.uuid := Fire(was, event).r];
    }
  }
}
