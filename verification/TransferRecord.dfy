/** A call transfer and its conversion to and from the dictionary that is persisted. */
module TransferRecord {
  import opened Wrappers

  datatype Status =
    | NoneMoved
    | NoneMovedCancelled
    | InitiatorMoved
    | InitiatorMovedCancelled
    | TransferredMoved
    | TransferredMovedCancelled
    | Starting
    | Invalid
    | Answered
    | BlindTransferred
    | Ringback
    | Ready
    | NonStasis
    | Ended
    | Abandoned

  datatype Flow = Attended | Blind

  datatype Role = TransferredRole | InitiatorRole | RecipientRole

  datatype Transfer = Transfer(
    id: string,
    initiatorUuid: string,
    initiatorTenant: string,
    transferredCall: string,
    initiatorCall: string,
    recipientCall: Option<string>,
    bridgeId: string,
    status: Status,
    flow: Flow)
  {
    /** The role of a call in the transfer; None where the source raises KeyError. */
    function Role(call: string): Option<Role>
    {
      if call == transferredCall then Some(TransferredRole)
      else if call == initiatorCall then Some(InitiatorRole)
      else if recipientCall == Some(call) then Some(RecipientRole)
      else None
    }

    predicate Involves(call: string)
    {
      call == transferredCall || call == initiatorCall || recipientCall == Some(call)
    }
  }

  datatype Json =
    | Null
    | Str(text: string)
    | List(items: seq<Json>)
    | Obj(fields: map<string, Json>)

  function StatusName(s: Status): string
  {
    match s
    case NoneMoved => "none_moved_to_stasis"
    case NoneMovedCancelled => "none_moved_to_stasis_cancelled"
    case InitiatorMoved => "initiator_moved_to_stasis"
    case InitiatorMovedCancelled => "initiator_moved_to_stasis_cancelled"
    case TransferredMoved => "transferred_moved_to_stasis"
    case TransferredMovedCancelled => "transferred_moved_to_stasis_cancelled"
    case Starting => "starting"
    case Invalid => "invalid"
    case Answered => "answered"
    case BlindTransferred => "blind_transferred"
    case Ringback => "ringback"
    case Ready => "ready"
    case NonStasis => "non_stasis"
    case Ended => "ended"
    case Abandoned => "abandoned"
  }

  function ParseStatus(name: string): Option<Status>
  {
    if name == "none_moved_to_stasis" then Some(NoneMoved)
    else if name == "none_moved_to_stasis_cancelled" then Some(NoneMovedCancelled)
    else if name == "initiator_moved_to_stasis" then Some(InitiatorMoved)
    else if name == "initiator_moved_to_stasis_cancelled" then Some(InitiatorMovedCancelled)
    else if name == "transferred_moved_to_stasis" then Some(TransferredMoved)
    else if name == "transferred_moved_to_stasis_cancelled" then Some(TransferredMovedCancelled)
    else if name == "starting" then Some(Starting)
    else if name == "invalid" then Some(Invalid)
    else if name == "answered" then Some(Answered)
    else if name == "blind_transferred" then Some(BlindTransferred)
    else if name == "ringback" then Some(Ringback)
    else if name == "ready" then Some(Ready)
    else if name == "non_stasis" then Some(NonStasis)
    else if name == "ended" then Some(Ended)
    else if name == "abandoned" then Some(Abandoned)
    else None
  }

  function FlowName(f: Flow): string
  {
    if f.Attended? then "attended" else "blind"
  }

  function ParseFlow(name: string): Option<Flow>
  {
    if name == "attended" then Some(Attended) else if name == "blind" then Some(Blind) else None
  }

  function ToInternalDict(t: Transfer): Json
  {
    Obj(map[
      "id" := Str(t.id),
      "initiator_uuid" := Str(t.initiatorUuid),
      "initiator_tenant_uuid" := Str(t.initiatorTenant),
      "transferred_call" := Str(t.transferredCall),
      "initiator_call" := Str(t.initiatorCall),
      "recipient_call" := if t.recipientCall.Some? then Str(t.recipientCall.value) else Null,
      "transfer_bridge_id" := Str(t.bridgeId),
      "status" := Str(StatusName(t.status)),
      "flow" := Str(FlowName(t.flow))])
  }

  /** Why reading a record can fail: a missing key, which the callers catch, or a value of the wrong shape. */
  datatype Read<+T> = Ok(value: T) | KeyMissing | Malformed

  function Text(fields: map<string, Json>, key: string): Read<string>
  {
    if key !in fields then KeyMissing else if fields[key].Str? then Ok(fields[key].text) else Malformed
  }

  const KEYS: set<string> :=
    {"id", "initiator_uuid", "initiator_tenant_uuid", "transferred_call", "initiator_call", "recipient_call",
     "transfer_bridge_id", "status", "flow"}

  /** `from_dict`: an empty id is replaced by a new one, an empty bridge id by the id. */
  function FromDict(j: Json, newId: string): Read<Transfer>
  {
    if !j.Obj? then Malformed
    else if !(KEYS <= j.fields.Keys) then KeyMissing
    else FromFields(j.fields, newId)
  }

  function FromFields(f: map<string, Json>, newId: string): Read<Transfer>
    requires KEYS <= f.Keys
  {
    if f["id"].Str? && f["initiator_uuid"].Str? && f["initiator_tenant_uuid"].Str? && f["transferred_call"].Str?
       && f["initiator_call"].Str? && (f["recipient_call"].Str? || f["recipient_call"].Null?)
       && f["transfer_bridge_id"].Str? && f["status"].Str? && f["flow"].Str?
       && ParseStatus(f["status"].text).Some? && ParseFlow(f["flow"].text).Some?
    then
      var id := if f["id"].text == "" then newId else f["id"].text;
      Ok(Transfer(id,
                  f["initiator_uuid"].text,
                  f["initiator_tenant_uuid"].text,
                  f["transferred_call"].text,
                  f["initiator_call"].text,
                  if f["recipient_call"].Str? then Some(f["recipient_call"].text) else None,
                  if f["transfer_bridge_id"].text == "" then id else f["transfer_bridge_id"].text,
                  ParseStatus(f["status"].text).value,
                  ParseFlow(f["flow"].text).value))
    else Malformed
  }

  /** Reading a written transfer gives it back exactly when its id and bridge id are not empty. */
  lemma RoundTrip(t: Transfer, newId: string)
    requires newId != ""
    ensures FromDict(ToInternalDict(t), newId) == Ok(t) <==> t.id != "" && t.bridgeId != ""
  {
    StatusNamesParse(t.status);
    var f := ToInternalDict(t).fields;
    assert KEYS <= f.Keys;
    assert f["flow"].text == FlowName(t.flow) && ParseFlow(FlowName(t.flow)) == Some(t.flow);
  }

  lemma StorableRoundTrip(t: Transfer, newId: string)
    requires t.id != "" && t.bridgeId != ""
    ensures FromDict(ToInternalDict(t), newId) == Ok(t)
  {
    StatusNamesParse(t.status);
    var f := ToInternalDict(t).fields;
    assert KEYS <= f.Keys;
    assert f["flow"].text == FlowName(t.flow) && ParseFlow(FlowName(t.flow)) == Some(t.flow);
  }

  lemma StatusNamesParse(s: Status)
    ensures ParseStatus(StatusName(s)) == Some(s)
  {
    match s
    case NoneMoved =>
    case NoneMovedCancelled =>
    case InitiatorMoved =>
    case InitiatorMovedCancelled =>
    case TransferredMoved =>
    case TransferredMovedCancelled =>
    case Starting =>
    case Invalid =>
    case Answered =>
    case BlindTransferred =>
    case Ringback =>
    case Ready =>
    case NonStasis =>
    case Ended =>
    case Abandoned =>
  }
}
