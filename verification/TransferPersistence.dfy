/** The records that the state machine works on are the content of the flat variable store. */
module TransferPersistence {
  import opened TransferRecord
  import opened TransferStates
  import opened TransferSafety
  import opened TransferSystem
  import P = StatePersistor

  /** What the transition wrapper writes: an upsert, a removal, or nothing when the transition raised. */
  function Written(codec: P.Codec, vars: P.Vars, o: Outcome, order: seq<string>): P.Vars
  {
    if !o.verdict.Returned? then vars
    else if o.t.status.Ended? then P.Remove(codec, vars, o.t.id, order)
    else P.Upsert(codec, vars, o.t, order)
  }

  /** The index that a transition leaves behind. */
  ghost function IndexAfter(codec: P.Codec, vars: P.Vars, o: Outcome): set<string>
  {
    if o.t.status.Ended? then P.Indexed(codec, vars) - {o.t.id} else P.Indexed(codec, vars) + {o.t.id}
  }

  /** Every transition, seen in the variable store, changes its content as it changes the records: the map of
      records that the state machine keeps is refined by the variables of Asterisk. */
  lemma TransitionsArePersisted(codec: P.Codec, vars: P.Vars, s: System, t: Transfer, event: Event, order: seq<string>)
    requires P.Exact(codec, vars) && P.Stored(codec, vars) == s.store && P.Storable(t)
    requires P.Enumerates(order, IndexAfter(codec, vars, Fire(event, t, s.world)))
    ensures var vars' := Written(codec, vars, Fire(event, t, s.world), order);
            P.Exact(codec, vars') && P.Stored(codec, vars') == FireIn(s, t, event).s.store
  {
    var o := Fire(event, t, s.world);
    TransitionDescends(event, t, s.world);
    if o.verdict.Returned? {
      if o.t.status.Ended? {
        P.RemoveRefines(codec, vars, o.t.id, order);
      } else {
        P.UpsertRefines(codec, vars, o.t, order);
      }
    }
  }
}
