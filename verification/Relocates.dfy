/** Relocates: moving one side of a call to another line.  Each relocate is an object behind a lock; the
    collection holds the ones that are not over. */
module Relocates {
  import opened Wrappers

  datatype State = Ready | RecipientRing | WaitingForCompletion | WaitingForRelocated | Ended

  datatype Published = Initiated | Answered | Completed | EndPublished

  /** What a relocate has published so far. */
  datatype Log = Nothing | Then(past: Log, last: Published)
  {
    function Times(e: Published): nat
    {
      match this
      case Nothing => 0
      case Then(past, last) => past.Times(e) + if last == e then 1 else 0
    }
  }

  datatype Completions = Completions(answer: bool, api: bool)

  /** `bridge` are the channels put in the relocate's bridge, `hungUp` the channels it hung up. */
  datatype Relocate = Relocate(
    uuid: string,
    state: State,
    relocated: string,
    initiator: string,
    recipient: Option<string>,
    completions: Completions,
    events: Log,
    bridge: set<string>,
    hungUp: set<string>)
  {
    predicate Has(channel: string)
    {
      channel == relocated || channel == initiator || recipient == Some(channel)
    }
  }

  /** How far the three ARI requests of the completer get before one fails. */
  datatype Bridging = NoBridge | NobodyIn | RecipientIn | BothIn

  /** What the originate gives; an error that is not an HTTP error is not handled. */
  datatype Originated = NewChannel(channel: string) | HttpError | OtherError

  /** `inStasis` is None when the relocated channel is gone when it is asked. */
  datatype Event =
    | Initiate(originated: Originated)
    | RecipientAnswered(inStasis: Option<bool>, bridging: Bridging)
    | RelocatedAnswered(bridging: Bridging)
    | RecipientHangup
    | InitiatorHangup
    | RelocatedHangup
    | Cancel
    | Complete(inStasis: Option<bool>, bridging: Bridging)

  datatype Verdict = Returned | Raised

  datatype Outcome = Outcome(verdict: Verdict, r: Relocate)

  // ---- What the states do ----

  function Publish(r: Relocate, e: Published): (r': Relocate)
    ensures forall x :: r'.events.Times(x) == r.events.Times(x) + if x == e then 1 else 0
  {
    r.(events := Then(r.events, e))
  }

  /** `set_state`, which publishes the end. */
  function SetState(r: Relocate, state: State): Relocate
  {
    if state.Ended? then Publish(r.(state := state), EndPublished) else r.(state := state)
  }

  function HangupOf(r: Relocate, channel: Option<string>): Relocate
  {
    if channel.Some? then r.(hungUp := r.hungUp + {channel.value}) else r
  }

  /** `RelocateCompleter.bridge`: publishes only if both channels made it into the bridge. */
  function BridgeThem(r: Relocate, bridging: Bridging): Relocate
  {
    match bridging
    case NoBridge => r
    case NobodyIn => r
    case RecipientIn => r.(bridge := r.bridge + (if r.recipient.Some? then {r.recipient.value} else {}))
    case BothIn =>
      Publish(r.(bridge := r.bridge + (if r.recipient.Some? then {r.recipient.value} else {}) + {r.relocated}),
          Completed)
  }

  /** Completion: at once when the relocated channel is in stasis, else when it gets there. */
  function CompleteNow(r: Relocate, inStasis: Option<bool>, bridging: Bridging): Outcome
  {
    match inStasis
    case None => Outcome(Raised, r)
    case Some(true) => Outcome(Returned, SetState(HangupOf(BridgeThem(r, bridging), Some(r.initiator)), Ended))
    case Some(false) => Outcome(Returned, SetState(r, WaitingForRelocated))
  }

  function EndWith(r: Relocate, hungUp: Option<string>): Outcome
  {
    Outcome(Returned, SetState(HangupOf(r, hungUp), Ended))
  }

  function InReady(r: Relocate, event: Event): Outcome
  {
    if !event.Initiate? then Outcome(Raised, r)
    else
      match event.originated
      case NewChannel(channel) => Outcome(Returned,
          Publish(SetState(r.(recipient := Some(channel)), RecipientRing), Initiated))
      case HttpError => Outcome(Raised, Publish(SetState(r, Ended), EndPublished))
      case OtherError => Outcome(Raised, r)
  }

  function InRecipientRing(r: Relocate, event: Event): Outcome
  {
    match event
    case RelocatedHangup => EndWith(r, r.recipient)
    case InitiatorHangup => EndWith(r, r.recipient)
    case RecipientHangup => EndWith(r, None)
    case Cancel => EndWith(r, r.recipient)
    case RecipientAnswered(inStasis, bridging) =>
      var answered := Publish(r, Answered);
      if r.completions.answer then CompleteNow(answered, inStasis, bridging)
      else if r.completions.api then Outcome(Returned, SetState(answered, WaitingForCompletion))
      else Outcome(Raised, answered)
    case _ => Outcome(Raised, r)
  }

  function InWaitingForCompletion(r: Relocate, event: Event): Outcome
  {
    match event
    case RelocatedHangup => EndWith(r, r.recipient)
    case InitiatorHangup => EndWith(r, r.recipient)
    case RecipientHangup => EndWith(r, None)
    case Cancel => EndWith(r, r.recipient)
    case Complete(inStasis, bridging) => CompleteNow(r, inStasis, bridging)
    case _ => Outcome(Raised, r)
  }

  function InWaitingForRelocated(r: Relocate, event: Event): Outcome
  {
    match event
    case RelocatedAnswered(bridging) => EndWith(BridgeThem(r, bridging), None)
    case RelocatedHangup => EndWith(r, r.recipient)
    case InitiatorHangup => Outcome(Returned, r)
    case RecipientHangup => EndWith(r, Some(r.relocated))
    case Complete(_, _) => Outcome(Returned, r)
    case _ => Outcome(Raised, r)
  }

  function InEnded(r: Relocate, event: Event): Outcome
  {
    match event
    case RecipientHangup => Outcome(Returned, r)
    case InitiatorHangup => Outcome(Returned, r)
    case RelocatedHangup => Outcome(Returned, r)
    case Complete(_, _) => Outcome(Returned, r)
    case _ => Outcome(Raised, r)
  }

  function Fire(r: Relocate, event: Event): Outcome
  {
    match r.state
    case Ready => InReady(r, event)
    case RecipientRing => InRecipientRing(r, event)
    case WaitingForCompletion => InWaitingForCompletion(r, event)
    case WaitingForRelocated => InWaitingForRelocated(r, event)
    case Ended => InEnded(r, event)
  }

  // ---- One relocate ----

  function Rank(s: State): nat
  {
    match s
    case Ready => 4
    case RecipientRing => 3
    case WaitingForCompletion => 2
    case WaitingForRelocated => 1
    case Ended => 0
  }

  /** What a relocate always satisfies.  `completed` is published at most once, at the end, with both parties
      in the bridge and nobody but the initiator hung up; the end is published exactly when it is reached,
      twice if the originate was refused and then before any recipient existed. */
  predicate Sound(r: Relocate)
  {
    && r.events.Times(Completed) <= 1
    && (r.events.Times(Completed) == 1 ==>
          && r.state.Ended? && r.recipient.Some? && {r.recipient.value, r.relocated} <= r.bridge
          && r.hungUp <= {r.initiator})
    && (r.state.Ended? <==> r.events.Times(EndPublished) >= 1)
    && r.events.Times(EndPublished) <= 2
    && (r.events.Times(EndPublished) == 2 ==> r.recipient.None? && r.hungUp == {})
    && (!r.state.Ended? ==> r.hungUp == {} && r.bridge == {})
    && (r.state.Ready? ==> r.recipient.None?)
    && (r.state.RecipientRing? || r.state.WaitingForCompletion? || r.state.WaitingForRelocated? ==> r.recipient.Some?)
  }

  predicate Moves(r: Relocate, r': Relocate)
  {
    && r'.uuid == r.uuid && r'.initiator == r.initiator && r'.relocated == r.relocated
    && (r'.state == r.state || Rank(r'.state) < Rank(r.state))
  }

  lemma CompletionIsSound(r: Relocate, inStasis: Option<bool>, bridging: Bridging)
    requires Sound(r) && (r.state.RecipientRing? || r.state.WaitingForCompletion?)
    ensures Sound(CompleteNow(r, inStasis, bridging).r) && Moves(r, CompleteNow(r, inStasis, bridging).r)
  {
  }

  lemma EndingIsSound(r: Relocate, hungUp: Option<string>)
    requires Sound(r) && !r.state.Ended? && !r.state.Ready?
    ensures Sound(EndWith(r, hungUp).r) && Moves(r, EndWith(r, hungUp).r)
  {
  }

  lemma ReadyIsSound(r: Relocate, event: Event)
    requires Sound(r) && r.state.Ready?
    ensures Sound(InReady(r, event).r) && Moves(r, InReady(r, event).r)
  {
  }

  lemma RingIsSound(r: Relocate, event: Event)
    requires Sound(r) && r.state.RecipientRing?
    ensures Sound(InRecipientRing(r, event).r) && Moves(r, InRecipientRing(r, event).r)
  {
    EndingIsSound(r, r.recipient);
    EndingIsSound(r, None);
    if event.RecipientAnswered? {
      CompletionIsSound(Publish(r, Answered), event.inStasis, event.bridging);
    }
  }

  lemma WaitingIsSound(r: Relocate, event: Event)
    requires Sound(r) && r.state.WaitingForCompletion?
    ensures Sound(InWaitingForCompletion(r, event).r) && Moves(r, InWaitingForCompletion(r, event).r)
  {
    EndingIsSound(r, r.recipient);
    EndingIsSound(r, None);
    if event.Complete? {
      CompletionIsSound(r, event.inStasis, event.bridging);
    }
  }

  lemma ArrivalIsSound(r: Relocate, bridging: Bridging)
    requires Sound(r) && r.state.WaitingForRelocated?
    ensures Sound(EndWith(BridgeThem(r, bridging), None).r) && Moves(r, EndWith(BridgeThem(r, bridging), None).r)
  {
  }

  lemma MovingIsSound(r: Relocate, event: Event)
    requires Sound(r) && r.state.WaitingForRelocated?
    ensures Sound(InWaitingForRelocated(r, event).r) && Moves(r, InWaitingForRelocated(r, event).r)
  {
    EndingIsSound(r, r.recipient);
    EndingIsSound(r, Some(r.relocated));
    if event.RelocatedAnswered? {
      ArrivalIsSound(r, event.bridging);
    }
  }

  /** Every event, in every state, keeps this; a state is left only for one of a strictly lower rank. */
  lemma FireIsSound(r: Relocate, event: Event)
    requires Sound(r)
    ensures Sound(Fire(r, event).r) && Moves(r, Fire(r, event).r)
  {
    match r.state
    case Ready => ReadyIsSound(r, event);
    case RecipientRing => RingIsSound(r, event);
    case WaitingForCompletion => WaitingIsSound(r, event);
    case WaitingForRelocated => MovingIsSound(r, event);
    case Ended =>
  }

  /** The events that complete a relocate: both channels end up in the bridge when it is time for it. */
  predicate CompletesNow(r: Relocate, event: Event)
  {
    match event
    case RecipientAnswered(inStasis, bridging) =>
      r.state.RecipientRing? && r.completions.answer && inStasis == Some(true) && bridging.BothIn?
    case Complete(inStasis, bridging) => r.state.WaitingForCompletion? && inStasis == Some(true) && bridging.BothIn?
    case RelocatedAnswered(bridging) => r.state.WaitingForRelocated? && bridging.BothIn?
    case _ => false
  }

  /** `completed` is published by exactly these events. */
  lemma CompletedExactly(r: Relocate, event: Event)
    requires Sound(r)
    ensures Fire(r, event).r.events.Times(Completed) == r.events.Times(Completed) + if CompletesNow(r, event) then 1
        else 0
  {
  }

  /** The end is published twice by a refused originate, once by any other event that reaches the end, and by
      no other event. */
  lemma EndExactly(r: Relocate, event: Event)
    requires Sound(r)
    ensures var r' := Fire(r, event).r;
            r'.events.Times(EndPublished) == r.events.Times(EndPublished)
              + if r.state.Ready? && event == Initiate(HttpError) then 2
                  else if r'.state.Ended? && !r.state.Ended? then 1 else 0
  {
  }

  // ---- The same machine, read by event ----

  /** What an event does to a relocate: the state it leads to, whom it hangs up, who gets into the bridge, and what it
      publishes. */
  datatype Consequence = Consequence(
    verdict: Verdict,
    state: State,
    hungUp: set<string>,
    joined: set<string>,
    events: Log)

  /** The recipient rings or has answered, and the relocated channel was not sent for yet. */
  predicate Early(r: Relocate) { r.state.RecipientRing? || r.state.WaitingForCompletion? }

  function Unchanged(r: Relocate): Consequence { Consequence(Returned, r.state, {}, {}, r.events) }

  function Refusal(r: Relocate): Consequence { Consequence(Raised, r.state, {}, {}, r.events) }

  function Ending(r: Relocate, hungUp: set<string>): Consequence
  {
    Consequence(Returned, Ended, hungUp, {}, Then(r.events, EndPublished))
  }

  /** The end, after `completed` if both channels got in. */
  function EndOf(events: Log, bridging: Bridging): Log
  {
    Then(if bridging.BothIn? then Then(events, Completed) else events, EndPublished)
  }

  /** Who is in the bridge when the requests got that far. */
  function JoinedBy(r: Relocate, bridging: Bridging): set<string>
    requires r.recipient.Some?
  {
    match bridging
    case NoBridge => {}
    case NobodyIn => {}
    case RecipientIn => {r.recipient.value}
    case BothIn => {r.recipient.value, r.relocated}
  }

  /** It is time to complete, with these events published: at once, with the initiator hung up, if the relocated channel
      is in stasis; when it gets there if it is not; never if it is gone. */
  function Completing(r: Relocate, events: Log, inStasis: Option<bool>, bridging: Bridging): Consequence
    requires r.recipient.Some?
  {
    match inStasis
    case None => Consequence(Raised, r.state, {}, {}, events)
    case Some(true) => Consequence(Returned, Ended, {r.initiator}, JoinedBy(r, bridging), EndOf(events, bridging))
    case Some(false) => Consequence(Returned, WaitingForRelocated, {}, {}, events)
  }

  /** The table.  A hangup or a cancel before the relocated channel was sent for ends the relocate, with the recipient
      hung up unless it is the one that left; while the relocated channel moves, each of the two that remain takes the
      other one along, and the initiator may go. */
  function ConsequenceOf(r: Relocate, event: Event): Consequence
    requires r.recipient.None? ==> r.state.Ready? || r.state.Ended?
  {
    match event
    case Initiate(NewChannel(_)) =>
      if r.state.Ready? then Consequence(Returned, RecipientRing, {}, {}, Then(r.events, Initiated)) else Refusal(r)
    case Initiate(HttpError) =>
      if r.state.Ready? then Consequence(Raised, Ended, {}, {}, Then(Then(r.events, EndPublished), EndPublished))
      else Refusal(r)
    case Initiate(OtherError) => Refusal(r)
    case RecipientHangup =>
      if Early(r) then Ending(r, {}) else if r.state.WaitingForRelocated? then Ending(r, {r.relocated}) else Quiet(r)
    case InitiatorHangup => if Early(r) then Ending(r, {r.recipient.value}) else Quiet(r)
    case RelocatedHangup =>
      if Early(r) || r.state.WaitingForRelocated? then Ending(r, {r.recipient.value}) else Quiet(r)
    case Cancel => if Early(r) then Ending(r, {r.recipient.value}) else Refusal(r)
    case RecipientAnswered(inStasis, bridging) =>
      if !r.state.RecipientRing? then Refusal(r)
      else if r.completions.answer then Completing(r, Then(r.events, Answered), inStasis, bridging)
      else if r.completions.api then Consequence(Returned, WaitingForCompletion, {}, {}, Then(r.events, Answered))
      else Consequence(Raised, r.state, {}, {}, Then(r.events, Answered))
    case Complete(inStasis, bridging) =>
      if r.state.WaitingForCompletion? then Completing(r, r.events, inStasis, bridging)
      else if r.state.RecipientRing? then Refusal(r) else Quiet(r)
    case RelocatedAnswered(bridging) =>
      if !r.state.WaitingForRelocated? then Refusal(r)
      else Consequence(Returned, Ended, {}, JoinedBy(r, bridging), EndOf(r.events, bridging))
  }

  /** Nothing happens any more, or not yet. */
  function Quiet(r: Relocate): Consequence
  {
    if r.state.Ready? then Refusal(r) else Unchanged(r)
  }

  /** The relocate afterwards. */
  predicate HasConsequence(r: Relocate, event: Event, c: Consequence, o: Outcome)
  {
    && o.verdict == c.verdict && o.r.state == c.state
    && o.r.hungUp == r.hungUp + c.hungUp && o.r.bridge == r.bridge + c.joined
    && o.r.events == c.events
    && o.r.uuid == r.uuid && o.r.relocated == r.relocated && o.r.initiator == r.initiator
    && o.r.completions == r.completions
    && o.r.recipient == if r.state.Ready? && event.Initiate? && event.originated.NewChannel?
                        then Some(event.originated.channel) else r.recipient
  }

  lemma ReadyHasConsequences(r: Relocate, event: Event)
    requires Sound(r) && r.state.Ready?
    ensures HasConsequence(r, event, ConsequenceOf(r, event), Fire(r, event))
  {
  }

  lemma RingHasConsequences(r: Relocate, event: Event)
    requires Sound(r) && r.state.RecipientRing?
    ensures HasConsequence(r, event, ConsequenceOf(r, event), Fire(r, event))
  {
  }

  lemma WaitingHasConsequences(r: Relocate, event: Event)
    requires Sound(r) && r.state.WaitingForCompletion?
    ensures HasConsequence(r, event, ConsequenceOf(r, event), Fire(r, event))
  {
  }

  lemma MovingHasConsequences(r: Relocate, event: Event)
    requires Sound(r) && r.state.WaitingForRelocated?
    ensures HasConsequence(r, event, ConsequenceOf(r, event), Fire(r, event))
  {
  }

  /** Every event, in every state, has exactly these consequences: which channels are hung up, which get into the
      bridge, what is published and in which order, and where it leads. */
  lemma EventsHaveConsequences(r: Relocate, event: Event)
    requires Sound(r)
    ensures HasConsequence(r, event, ConsequenceOf(r, event), Fire(r, event))
  {
    match r.state
    case Ready => ReadyHasConsequences(r, event);
    case RecipientRing => RingHasConsequences(r, event);
    case WaitingForCompletion => WaitingHasConsequences(r, event);
    case WaitingForRelocated => MovingHasConsequences(r, event);
    case Ended =>
  }

  // ---- Any sequence of events ----

  function FireAll(r: Relocate, events: seq<Event>): Relocate
  {
    if events == [] then r else Fire(FireAll(r, events[..|events| - 1]), events[|events| - 1]).r
  }

  /** The originate of the relocate was refused by an HTTP error at this moment. */
  predicate RefusedAt(r: Relocate, events: seq<Event>, i: nat)
    requires i < |events|
  {
    FireAll(r, events[..i]).state.Ready? && events[i] == Initiate(HttpError)
  }

  predicate CompletedAt(r: Relocate, events: seq<Event>, i: nat)
    requires i < |events|
  {
    CompletesNow(FireAll(r, events[..i]), events[i])
  }

  /** The channel was hung up by the i-th event. */
  ghost predicate HungUpAt(r: Relocate, events: seq<Event>, i: nat, c: string)
    requires i < |events|
  {
    Sound(FireAll(r, events[..i])) && c in ConsequenceOf(FireAll(r, events[..i]), events[i]).hungUp
  }

  /** After any events, exactly those channels are hung up that some event hangs up by the table. */
  lemma {:induction false} HungUpExactly(r: Relocate, events: seq<Event>, c: string)
    requires Sound(r) && r.state.Ready?
    ensures Sound(FireAll(r, events))
    ensures c in FireAll(r, events).hungUp <==> exists i :: 0 <= i < |events| && HungUpAt(r, events, i, c)
  {
    if events != [] {
      var n := |events| - 1;
      HungUpExactly(r, events[..n], c);
      FireIsSound(FireAll(r, events[..n]), events[n]);
      EventsHaveConsequences(FireAll(r, events[..n]), events[n]);
      forall i | 0 <= i < n ensures HungUpAt(r, events[..n], i, c) <==> HungUpAt(r, events, i, c) {
        assert events[..n][..i] == events[..i];
      }
      assert HungUpAt(r, events, n, c) <==> c in ConsequenceOf(FireAll(r, events[..n]), events[n]).hungUp;
    }
  }

  predicate EverRefused(r: Relocate, events: seq<Event>)
  {
    exists i :: 0 <= i < |events| && RefusedAt(r, events, i)
  }

  predicate EverCompleted(r: Relocate, events: seq<Event>)
  {
    exists i :: 0 <= i < |events| && CompletedAt(r, events, i)
  }

  /** Either happened before the last event, or with it. */
  lemma BeforeOrNow(r: Relocate, events: seq<Event>)
    requires events != []
    ensures var n := |events| - 1;
            && (EverRefused(r, events) <==> EverRefused(r, events[..n]) || RefusedAt(r, events, n))
            && (EverCompleted(r, events) <==> EverCompleted(r, events[..n]) || CompletedAt(r, events, n))
  {
    var n := |events| - 1;
    forall i | 0 <= i < n
      ensures RefusedAt(r, events[..n], i) == RefusedAt(r, events, i)
          && CompletedAt(r, events[..n], i) == CompletedAt(r, events, i) {
      assert events[..n][..i] == events[..i];
    }
  }

  /** After any events a new relocate has published its end as often as it should: not before it is over, then
      once, or twice if its originate was refused; and `completed` once or never, once exactly if one of the
      events completed it. */
  lemma {:induction false} PublishedExactly(r: Relocate, events: seq<Event>)
    requires Sound(r) && r.state.Ready?
    ensures var r' := FireAll(r, events);
            && Sound(r')
            && r'.events.Times(EndPublished) == (if EverRefused(r, events) then 2 else if r'.state.Ended? then 1 else 0)
            && r'.events.Times(Completed) == (if EverCompleted(r, events) then 1 else 0)
  {
    if events != [] {
      var n := |events| - 1;
      PublishedExactly(r, events[..n]);
      BeforeOrNow(r, events);
      OneMoreEvent(FireAll(r, events[..n]), events[n]);
    }
  }

  lemma OneMoreEvent(r: Relocate, event: Event)
    requires Sound(r)
    ensures var r' := Fire(r, event).r;
            && Sound(r')
            && (r.state.Ended? ==> r'.state.Ended?)
            && (r.state.Ready? && event == Initiate(HttpError) ==> r'.state.Ended? && r.events.Times(EndPublished) == 0)
            && (CompletesNow(r, event) ==> r.events.Times(Completed) == 0)
            && r'.events.Times(EndPublished) == r.events.Times(EndPublished)
                 + (if r.state.Ready? && event == Initiate(HttpError) then 2
                     else if r'.state.Ended? && !r.state.Ended? then 1 else 0)
            && r'.events.Times(Completed) == r.events.Times(Completed) + if CompletesNow(r, event) then 1 else 0
  {
    FireIsSound(r, event);
    EndExactly(r, event);
    CompletedExactly(r, event);
  }
}
