/** The transfers kept in Asterisk's global variables: one flat string store, one variable per transfer
    and one for the index.  The JSON library is a parameter; only its round trip is assumed. */
module StatePersistor {
  import opened Wrappers
  import opened TransferRecord

  type Vars = map<string, string>

  /** `json.dumps` and `json.loads`; loading text that is not JSON gives None. */
  datatype Codec = Codec(dumps: Json -> string, loads: string -> Option<Json>)
  {
    ghost predicate Faithful()
    {
      forall j {:trigger dumps(j)} :: dumps(j) != "" && loads(dumps(j)) == Some(j)
    }
  }

  // ---- The variables of Asterisk ----

  const PREFIX := "XIVO_TRANSFERS_"
  const INDEX := "XIVO_TRANSFERS_INDEX"
  const DELETE := "GLOBAL_DELETE("

  function Key(id: string): string { PREFIX + id }

  lemma KeyIsInjective(a: string, b: string)
    ensures Key(a) == Key(b) ==> a == b
    ensures Key(a) == INDEX <==> a == "INDEX"
  {
    assert Key(a)[|PREFIX|..] == a && Key(b)[|PREFIX|..] == b;
    assert INDEX == Key("INDEX") && INDEX[|PREFIX|..] == "INDEX";
  }

  /** A variable that does not exist reads as the empty string. */
  function GetGlobalVar(vars: Vars, name: string): string
  {
    if name in vars then vars[name] else ""
  }

  /** Setting `GLOBAL_DELETE(name)` deletes `name`. */
  function SetGlobalVar(vars: Vars, name: string, value: string): Vars
  {
    if DELETE <= name && name[|name| - 1] == ')' then vars - {name[|DELETE|..|name| - 1]} else vars[name := value]
  }

  function Unset(vars: Vars, name: string): Vars
  {
    SetGlobalVar(vars, DELETE + name + ")", "")
  }

  lemma UnsetDeletes(vars: Vars, name: string)
    ensures Unset(vars, name) == vars - {name}
  {
    var whole := DELETE + name + ")";
    assert whole[|DELETE|..|whole| - 1] == name;
  }

  lemma SetWrites(vars: Vars, id: string, value: string)
    ensures SetGlobalVar(vars, Key(id), value) == vars[Key(id) := value]
    ensures SetGlobalVar(vars, INDEX, value) == vars[INDEX := value]
  {
    assert Key(id)[0] == 'X' && DELETE[0] == 'G' && INDEX[0] == 'X';
  }

  // ---- JSON variables ----

  function GetJson(codec: Codec, vars: Vars, name: string): Read<Json>
  {
    var text := GetGlobalVar(vars, name);
    if text == "" then KeyMissing
    else
      var j := codec.loads(text);
      if j.Some? then Ok(j.value) else Malformed
  }

  function GetTransfer(codec: Codec, vars: Vars, id: string, newId: string): Read<Transfer>
  {
    match GetJson(codec, vars, Key(id))
    case Ok(j) => FromDict(j, newId)
    case KeyMissing => KeyMissing
    case Malformed => Malformed
  }

  function Texts(items: seq<Json>): Read<seq<string>>
  {
    if items == [] then Ok([])
    else if !items[0].Str? then Malformed
    else
      var rest := Texts(items[1..]);
      if rest.Ok? then Ok([items[0].text] + rest.value) else Malformed
  }

  function Strs(ids: seq<string>): (items: seq<Json>)
    ensures |items| == |ids| && forall i :: 0 <= i < |ids| ==> items[i] == Str(ids[i])
  {
    seq(|ids|, i requires 0 <= i < |ids| => Str(ids[i]))
  }

  lemma {:induction false} TextsOfStrs(ids: seq<string>)
    ensures Texts(Strs(ids)) == Ok(ids)
  {
    if ids == [] {
    } else {
      TextsOfStrs(ids[1..]);
      assert Strs(ids)[1..] == Strs(ids[1..]);
      assert [ids[0]] + ids[1..] == ids;
    }
  }

  /** The index, `[]` when there is none. */
  function GetIndex(codec: Codec, vars: Vars): Read<seq<string>>
  {
    match GetJson(codec, vars, INDEX)
    case Ok(List(items)) => Texts(items)
    case Ok(_) => Malformed
    case KeyMissing => Ok([])
    case Malformed => Malformed
  }

  lemma {:induction false} TextsExactly(items: seq<Json>, ids: seq<string>)
    ensures Texts(items) == Ok(ids) <==> items == Strs(ids)
  {
    if items == Strs(ids) {
      TextsOfStrs(ids);
    } else if Texts(items) == Ok(ids) {
      TextsAreStrs(items, ids);
    }
  }

  lemma {:induction false} TextsAreStrs(items: seq<Json>, ids: seq<string>)
    requires Texts(items) == Ok(ids)
    ensures items == Strs(ids)
  {
    if items != [] {
      TextsAreStrs(items[1..], ids[1..]);
      assert items == [items[0]] + items[1..] && Strs(ids) == [Str(ids[0])] + Strs(ids[1..]);
    }
  }

  /** The index reads as these ids exactly if it is a JSON list of them, or if there is no index and they are none. */
  lemma IndexReadsAs(codec: Codec, vars: Vars, ids: seq<string>)
    ensures GetIndex(codec, vars) == Ok(ids)
        <==> if INDEX in vars && vars[INDEX] != "" then codec.loads(vars[INDEX]) == Some(List(Strs(ids))) else ids == []
  {
    if INDEX in vars && vars[INDEX] != "" {
      match codec.loads(vars[INDEX])
      case Some(List(items)) => TextsExactly(items, ids);
      case _ =>
    }
  }

  // ---- The writes, one by one ----

  function WriteRecord(codec: Codec, vars: Vars, t: Transfer): Vars
  {
    SetGlobalVar(vars, Key(t.id), codec.dumps(ToInternalDict(t)))
  }

  function WriteIndex(codec: Codec, vars: Vars, ids: seq<string>): Vars
  {
    SetGlobalVar(vars, INDEX, codec.dumps(List(Strs(ids))))
  }

  predicate Distinct(ids: seq<string>)
  {
    forall i, j :: 0 <= i < j < |ids| ==> ids[i] != ids[j]
  }

  // ---- What a store means ----

  /** A transfer that `upsert` can store: its id is not empty and not the name of the index. */
  predicate Storable(t: Transfer)
  {
    t.id != "" && t.id != "INDEX" && t.bridgeId != ""
  }

  /** There is a record for `id`. */
  predicate Has(vars: Vars, id: string)
  {
    Key(id) in vars
  }

  function ReadAt(codec: Codec, vars: Vars, id: string): Read<Transfer>
  {
    GetTransfer(codec, vars, id, "new")
  }

  /** The record of `id` is the text of a storable transfer with that id. */
  ghost predicate HoldsRecord(codec: Codec, vars: Vars, id: string)
    requires Has(vars, id)
  {
    exists t: Transfer :: Storable(t) && t.id == id && vars[Key(id)] == codec.dumps(ToInternalDict(t))
  }

  ghost predicate RecordsAreWhole(codec: Codec, vars: Vars)
  {
    forall id :: id != "INDEX" && Has(vars, id) ==> HoldsRecord(codec, vars, id)
  }

  /** The index is readable and duplicate-free, and every record variable holds a whole transfer.  The index
      and the records need not agree: this is what survives a crash between two writes. */
  ghost predicate WellFormed(codec: Codec, vars: Vars)
  {
    && codec.Faithful()
    && GetIndex(codec, vars).Ok? && Distinct(GetIndex(codec, vars).value) && "INDEX" !in GetIndex(codec, vars).value
    && RecordsAreWhole(codec, vars)
  }

  ghost function Indexed(codec: Codec, vars: Vars): set<string>
  {
    if GetIndex(codec, vars).Ok? then set id | id in GetIndex(codec, vars).value else {}
  }

  /** The index lists exactly the stored ids, leaving `id` aside. */
  ghost predicate ExactBut(codec: Codec, vars: Vars, id: string)
  {
    WellFormed(codec, vars) && forall x :: x != "INDEX" && x != id ==> (Has(vars, x) <==> x in Indexed(codec, vars))
  }

  /** The index lists exactly the stored ids. */
  ghost predicate Exact(codec: Codec, vars: Vars)
  {
    WellFormed(codec, vars) && forall x :: x != "INDEX" ==> (Has(vars, x) <==> x in Indexed(codec, vars))
  }

  /** The abstract content: the indexed ids that have a record, with their transfers. */
  ghost function Stored(codec: Codec, vars: Vars): map<string, Transfer>
  {
    map id | id in Indexed(codec, vars) && ReadAt(codec, vars, id).Ok? :: ReadAt(codec, vars, id).value
  }

  /** No variable other than the record of `id` and the index differs. */
  ghost predicate OthersKept(vars: Vars, vars': Vars, id: string)
  {
    forall name :: name != Key(id) && name != INDEX ==> Get(vars', name) == Get(vars, name)
  }

  /** Every other id reads as before. */
  ghost predicate ReadsKept(codec: Codec, vars: Vars, vars': Vars, id: string)
  {
    forall x :: x != "INDEX" && x != id ==>
      Has(vars', x) == Has(vars, x) && ReadAt(codec, vars', x) == ReadAt(codec, vars, x)
  }

  lemma OtherVariables(codec: Codec, vars: Vars, vars': Vars, id: string)
    requires OthersKept(vars, vars', id)
    ensures ReadsKept(codec, vars, vars', id)
  {
    forall x | x != "INDEX" && x != id
      ensures Has(vars', x) == Has(vars, x) && ReadAt(codec, vars', x) == ReadAt(codec, vars, x)
    {
      KeyIsInjective(x, id);
      assert Get(vars', Key(x)) == Get(vars, Key(x));
    }
  }

  // ---- Reading ----

  lemma ReadTransfer(codec: Codec, vars: Vars, t: Transfer, newId: string)
    requires codec.Faithful() && t.id != "" && t.bridgeId != ""
    requires Has(vars, t.id) && vars[Key(t.id)] == codec.dumps(ToInternalDict(t))
    ensures GetTransfer(codec, vars, t.id, newId) == Ok(t)
  {
    StorableRoundTrip(t, newId);
  }

  lemma ReadRecord(codec: Codec, vars: Vars, id: string, newId: string)
    requires codec.Faithful() && RecordsAreWhole(codec, vars) && id != "INDEX"
    ensures Has(vars, id) ==> ReadAt(codec, vars, id).Ok? && Storable(ReadAt(codec, vars, id).value)
    ensures Has(vars, id) ==> ReadAt(codec, vars, id).value.id == id
    ensures !Has(vars, id) ==> ReadAt(codec, vars, id) == KeyMissing
    ensures GetTransfer(codec, vars, id, newId) == ReadAt(codec, vars, id)
  {
    if Has(vars, id) {
      assert HoldsRecord(codec, vars, id);
      var t: Transfer :| Storable(t) && t.id == id && vars[Key(id)] == codec.dumps(ToInternalDict(t));
      ReadTransfer(codec, vars, t, newId);
      ReadTransfer(codec, vars, t, "new");
    }
  }

  // ---- Writing ----

  lemma WriteRecordKeeps(codec: Codec, vars: Vars, t: Transfer)
    requires codec.Faithful() && RecordsAreWhole(codec, vars) && Storable(t)
    ensures var vars' := WriteRecord(codec, vars, t);
            && RecordsAreWhole(codec, vars') && OthersKept(vars, vars', t.id)
            && GetIndex(codec, vars') == GetIndex(codec, vars)
            && Has(vars', t.id) && ReadAt(codec, vars', t.id) == Ok(t)
  {
    var vars' := WriteRecord(codec, vars, t);
    SetWrites(vars, t.id, codec.dumps(ToInternalDict(t)));
    KeyIsInjective(t.id, "INDEX");
    ReadTransfer(codec, vars', t, "new");
    forall id | id != "INDEX" && Has(vars', id) ensures HoldsRecord(codec, vars', id) {
      KeyIsInjective(id, t.id);
      if id != t.id {
        assert HoldsRecord(codec, vars, id);
      }
    }
  }

  lemma UnsetRecordKeeps(codec: Codec, vars: Vars, id: string)
    requires RecordsAreWhole(codec, vars) && id != "INDEX"
    ensures var vars' := Unset(vars, Key(id));
            && RecordsAreWhole(codec, vars') && OthersKept(vars, vars', id)
            && GetIndex(codec, vars') == GetIndex(codec, vars)
            && !Has(vars', id)
  {
    var vars' := Unset(vars, Key(id));
    UnsetDeletes(vars, Key(id));
    KeyIsInjective(id, "INDEX");
    forall x | x != "INDEX" && Has(vars', x) ensures HoldsRecord(codec, vars', x) {
      assert HoldsRecord(codec, vars, x);
    }
  }

  lemma WriteIndexKeeps(codec: Codec, vars: Vars, ids: seq<string>)
    requires codec.Faithful() && RecordsAreWhole(codec, vars)
    ensures var vars' := WriteIndex(codec, vars, ids);
            && RecordsAreWhole(codec, vars') && OthersKept(vars, vars', "INDEX")
            && GetIndex(codec, vars') == Ok(ids)
  {
    var vars' := WriteIndex(codec, vars, ids);
    SetWrites(vars, "INDEX", codec.dumps(List(Strs(ids))));
    TextsOfStrs(ids);
    assert codec.loads(codec.dumps(List(Strs(ids)))) == Some(List(Strs(ids)));
    forall id | id != "INDEX" && Has(vars', id) ensures HoldsRecord(codec, vars', id) {
      KeyIsInjective(id, "INDEX");
      assert HoldsRecord(codec, vars, id);
    }
  }

  // ---- upsert and remove as refinements ----

  /** `upsert`: the record, then the index; `order` is the order in which the index is written. */
  function Upsert(codec: Codec, vars: Vars, t: Transfer, order: seq<string>): Vars
  {
    WriteIndex(codec, WriteRecord(codec, vars, t), order)
  }

  /** `remove`: the record, then the index unless it does not know the id. */
  function Remove(codec: Codec, vars: Vars, id: string, order: seq<string>): Vars
  {
    var gone := Unset(vars, Key(id));
    if GetIndex(codec, gone).Ok? && id in GetIndex(codec, gone).value then WriteIndex(codec, gone, order) else gone
  }

  predicate Enumerates(order: seq<string>, ids: set<string>)
  {
    Distinct(order) && (set id | id in order) == ids
  }

  lemma StoredKeys(codec: Codec, vars: Vars)
    requires WellFormed(codec, vars)
    ensures forall id :: id in Stored(codec, vars) <==> id in Indexed(codec, vars) && Has(vars, id)
    ensures forall id :: id in Stored(codec, vars) ==> ReadAt(codec, vars, id) == Ok(Stored(codec, vars)[id])
  {
    forall id | id in Indexed(codec, vars) ensures Has(vars, id) <==> ReadAt(codec, vars, id).Ok? {
      ReadRecord(codec, vars, id, "new");
    }
  }

  /** Two stores that agree away from `id` have the same content away from `id`. */
  lemma ContentChanges(codec: Codec, vars: Vars, vars': Vars, id: string)
    requires WellFormed(codec, vars) && WellFormed(codec, vars') && ReadsKept(codec, vars, vars', id) && id != "INDEX"
    requires Indexed(codec, vars') - {id} == Indexed(codec, vars) - {id}
    ensures Stored(codec, vars') - {id} == Stored(codec, vars) - {id}
    ensures id in Stored(codec, vars') <==> id in Indexed(codec, vars') && Has(vars', id)
    ensures id in Stored(codec, vars') ==> ReadAt(codec, vars', id) == Ok(Stored(codec, vars')[id])
  {
    StoredKeys(codec, vars);
    StoredKeys(codec, vars');
    var m, m' := Stored(codec, vars), Stored(codec, vars');
    forall x | x != id ensures Get(m', x) == Get(m, x) {
      SameAwayFrom(codec, vars, vars', id, x);
    }
    EqualAwayFrom(m, m', id);
  }

  lemma SameAwayFrom(codec: Codec, vars: Vars, vars': Vars, id: string, x: string)
    requires ReadsKept(codec, vars, vars', id) && x != id && "INDEX" !in Indexed(codec, vars)
        && "INDEX" !in Indexed(codec, vars')
    requires Indexed(codec, vars') - {id} == Indexed(codec, vars) - {id}
    ensures Get(Stored(codec, vars'), x) == Get(Stored(codec, vars), x)
  {
    assert x in Indexed(codec, vars') <==> x in Indexed(codec, vars') - {id};
    assert x in Indexed(codec, vars) <==> x in Indexed(codec, vars) - {id};
  }

  lemma EqualAwayFrom<K, V>(m: map<K, V>, m': map<K, V>, k: K)
    requires forall x :: x != k ==> Get(m', x) == Get(m, x)
    ensures m' - {k} == m - {k}
  {
    forall x | x != k
      ensures x in m' <==> x in m
      ensures x in m ==> m'[x] == m[x]
    {
      assert Get(m', x) == Get(m, x);
    }
  }

  lemma PutTwice<K, V>(m: map<K, V>, middle: map<K, V>, k: K, v: V)
    requires middle == m || middle == m[k := v]
    ensures middle[k := v] == m[k := v]
  {
  }

  lemma RemoveTwice<K, V>(m: map<K, V>, middle: map<K, V>, k: K)
    requires middle == m - {k}
    ensures middle - {k} == m - {k}
  {
  }

  lemma AddBack<K, V>(m: map<K, V>, m': map<K, V>, k: K, v: V)
    requires m' - {k} == m - {k} && k in m' && m'[k] == v
    ensures m' == m[k := v]
  {
    forall x | x != k
      ensures x in m' <==> x in m
      ensures x in m ==> x in m' && m'[x] == m[x]
    {
      assert x in m' <==> x in m' - {k};
      assert x in m <==> x in m - {k};
      if x in m {
        assert m'[x] == (m' - {k})[x] == (m - {k})[x] == m[x];
      }
    }
  }

  lemma NothingToRemove<K, V>(m: map<K, V>, k: K)
    requires k !in m
    ensures m - {k} == m
  {
  }

  lemma Enumerated(codec: Codec, vars: Vars, order: seq<string>, ids: set<string>)
    requires GetIndex(codec, vars) == Ok(order) && Enumerates(order, ids)
    ensures Indexed(codec, vars) == ids && forall id :: id in order <==> id in ids
  {
    assert Indexed(codec, vars) == set id | id in order;
    assert forall id :: id in order <==> id in set x | x in order;
  }

  /** The three stores `upsert` goes through, for a store whose index may be wrong about this very id. */
  lemma UpsertSteps(codec: Codec, vars: Vars, t: Transfer, order: seq<string>)
    requires WellFormed(codec, vars) && Storable(t) && Enumerates(order, Indexed(codec, vars) + {t.id})
    ensures var vars' := Upsert(codec, vars, t, order);
            && WellFormed(codec, vars') && OthersKept(vars, vars', t.id)
            && Indexed(codec, vars') == Indexed(codec, vars) + {t.id}
            && Has(vars', t.id) && ReadAt(codec, vars', t.id) == Ok(t)
  {
    var written := WriteRecord(codec, vars, t);
    var vars' := WriteIndex(codec, written, order);
    WriteRecordKeeps(codec, vars, t);
    WriteIndexKeeps(codec, written, order);
    Enumerated(codec, vars', order, Indexed(codec, vars) + {t.id});
    OtherVariables(codec, written, vars', "INDEX");
    forall name | name != Key(t.id) && name != INDEX ensures Get(vars', name) == Get(vars, name) {
      KeyIsInjective("INDEX", "INDEX");
      assert Get(vars', name) == Get(written, name);
    }
  }

  lemma RemoveSteps(codec: Codec, vars: Vars, id: string, order: seq<string>)
    requires WellFormed(codec, vars) && id != "INDEX" && Enumerates(order, Indexed(codec, vars) - {id})
    ensures var vars' := Remove(codec, vars, id, order);
            && WellFormed(codec, vars') && OthersKept(vars, vars', id)
            && Indexed(codec, vars') == Indexed(codec, vars) - {id}
            && !Has(vars', id)
  {
    var gone := Unset(vars, Key(id));
    UnsetRecordKeeps(codec, vars, id);
    if id in GetIndex(codec, gone).value {
      var vars' := WriteIndex(codec, gone, order);
      WriteIndexKeeps(codec, gone, order);
      Enumerated(codec, vars', order, Indexed(codec, vars) - {id});
      OtherVariables(codec, gone, vars', "INDEX");
      forall name | name != Key(id) && name != INDEX ensures Get(vars', name) == Get(vars, name) {
        KeyIsInjective("INDEX", "INDEX");
        assert Get(vars', name) == Get(gone, name);
      }
    }
  }

  /** A completed `upsert` stores the transfer under its id, keeps every other, and touches no other
      variable.  It does so even when an earlier `upsert` or `remove` of that id was interrupted. */
  lemma UpsertRefines(codec: Codec, vars: Vars, t: Transfer, order: seq<string>)
    requires ExactBut(codec, vars, t.id) && Storable(t) && Enumerates(order, Indexed(codec, vars) + {t.id})
    ensures var vars' := Upsert(codec, vars, t, order);
            && Exact(codec, vars')
            && Stored(codec, vars') == Stored(codec, vars)[t.id := t]
            && OthersKept(vars, vars', t.id)
  {
    var vars' := Upsert(codec, vars, t, order);
    UpsertSteps(codec, vars, t, order);
    OtherVariables(codec, vars, vars', t.id);
    ContentChanges(codec, vars, vars', t.id);
    AddBack(Stored(codec, vars), Stored(codec, vars'), t.id, t);
  }

  /** A completed `remove` forgets the id, keeps every other transfer, and touches no other variable; also
      after an interruption. */
  lemma RemoveRefines(codec: Codec, vars: Vars, id: string, order: seq<string>)
    requires ExactBut(codec, vars, id) && id != "INDEX" && Enumerates(order, Indexed(codec, vars) - {id})
    ensures var vars' := Remove(codec, vars, id, order);
            && Exact(codec, vars')
            && Stored(codec, vars') == Stored(codec, vars) - {id}
            && OthersKept(vars, vars', id)
  {
    var vars' := Remove(codec, vars, id, order);
    RemoveSteps(codec, vars, id, order);
    OtherVariables(codec, vars, vars', id);
    ContentChanges(codec, vars, vars', id);
    NothingToRemove(Stored(codec, vars'), id);
  }

  // ---- Any sequence of upserts and removes ----

  datatype Write = Upserts(t: Transfer, order: seq<string>) | Removes(id: string, order: seq<string>)

  /** The id can be stored, and the index is written in some order of what it lists afterwards. */
  ghost predicate CanWrite(codec: Codec, vars: Vars, write: Write)
  {
    match write
    case Upserts(t, order) => Storable(t) && Enumerates(order, Indexed(codec, vars) + {t.id})
    case Removes(id, order) => id != "INDEX" && Enumerates(order, Indexed(codec, vars) - {id})
  }

  function Done(codec: Codec, vars: Vars, write: Write): Vars
  {
    match write
    case Upserts(t, order) => Upsert(codec, vars, t, order)
    case Removes(id, order) => Remove(codec, vars, id, order)
  }

  /** What a map from ids to transfers would hold after these writes. */
  function Content(writes: seq<Write>): map<string, Transfer>
  {
    if writes == [] then map[]
    else
      var before := Content(writes[..|writes| - 1]);
      match writes[|writes| - 1]
      case Upserts(t, _) => before[t.id := t]
      case Removes(id, _) => before - {id}
  }

  /** The variables of Asterisk, from a moment when none of them belonged to the store. */
  ghost predicate IsHistory(codec: Codec, history: seq<Vars>, writes: seq<Write>)
  {
    && |history| == |writes| + 1 && (forall name :: name in history[0] ==> !(PREFIX <= name))
    && forall i :: 0 <= i < |writes| ==>
         CanWrite(codec, history[i], writes[i]) && history[i + 1] == Done(codec, history[i], writes[i])
  }

  lemma FreshIsEmpty(codec: Codec, vars: Vars)
    requires codec.Faithful() && forall name :: name in vars ==> !(PREFIX <= name)
    ensures Exact(codec, vars) && Stored(codec, vars) == map[]
  {
    assert PREFIX <= INDEX && forall id :: PREFIX <= Key(id);
  }

  /** From a fresh Asterisk on, the flat variables hold exactly what a map would after the same upserts and removes, the
      index lists exactly the stored ids, and no variable of anybody else is touched. */
  lemma {:induction false} StoreIsAMap(codec: Codec, history: seq<Vars>, writes: seq<Write>, n: nat)
    requires codec.Faithful() && IsHistory(codec, history, writes) && n < |history|
    ensures Exact(codec, history[n]) && Stored(codec, history[n]) == Content(writes[..n])
    ensures forall name :: !(PREFIX <= name) ==> Get(history[n], name) == Get(history[0], name)
  {
    if n == 0 {
      FreshIsEmpty(codec, history[0]);
    } else {
      StoreIsAMap(codec, history, writes, n - 1);
      assert writes[..n][..n - 1] == writes[..n - 1] && writes[..n][n - 1] == writes[n - 1];
      assert PREFIX <= INDEX && forall id :: PREFIX <= Key(id);
      match writes[n - 1]
      case Upserts(t, order) => UpsertRefines(codec, history[n - 1], t, order);
      case Removes(id, order) => RemoveRefines(codec, history[n - 1], id, order);
    }
  }

  // ---- Crash points ----

  /** Stopping `upsert` between its two writes: the store is still well formed, nothing but the record of the
      transfer changed, and what is listed is the old content, with the new version if the id was there. */
  lemma UpsertInterrupted(codec: Codec, vars: Vars, t: Transfer)
    requires Exact(codec, vars) && Storable(t)
    ensures var middle := WriteRecord(codec, vars, t);
            && ExactBut(codec, middle, t.id)
            && Stored(codec, middle) == (if t.id in Stored(codec, vars) then Stored(codec, vars)[t.id := t]
                else Stored(codec, vars))
            && Indexed(codec, middle) == Indexed(codec, vars)
  {
    var middle := WriteRecord(codec, vars, t);
    WriteRecordKeeps(codec, vars, t);
    OtherVariables(codec, vars, middle, t.id);
    ContentChanges(codec, vars, middle, t.id);
    StoredKeys(codec, vars);
    if t.id in Stored(codec, vars) {
      AddBack(Stored(codec, vars), Stored(codec, middle), t.id, t);
    } else {
      NothingToRemove(Stored(codec, vars), t.id);
      NothingToRemove(Stored(codec, middle), t.id);
    }
  }

  /** Stopping `remove` between its two writes: the id dangles in the index and is no longer listed. */
  lemma RemoveInterrupted(codec: Codec, vars: Vars, id: string)
    requires Exact(codec, vars) && id != "INDEX"
    ensures var middle := Unset(vars, Key(id));
            && ExactBut(codec, middle, id)
            && Stored(codec, middle) == Stored(codec, vars) - {id}
            && Indexed(codec, middle) == Indexed(codec, vars)
  {
    var middle := Unset(vars, Key(id));
    UnsetRecordKeeps(codec, vars, id);
    OtherVariables(codec, vars, middle, id);
    ContentChanges(codec, vars, middle, id);
    NothingToRemove(Stored(codec, middle), id);
  }

  /** Running an interrupted `upsert` again gives what it would have given without the interruption. */
  lemma RerunUpsertRepairs(codec: Codec, vars: Vars, t: Transfer, order: seq<string>)
    requires Exact(codec, vars) && Storable(t) && Enumerates(order, Indexed(codec, vars) + {t.id})
    ensures var again := Upsert(codec, WriteRecord(codec, vars, t), t, order);
            Exact(codec, again) && Stored(codec, again) == Stored(codec, vars)[t.id := t]
  {
    UpsertInterrupted(codec, vars, t);
    UpsertRefines(codec, WriteRecord(codec, vars, t), t, order);
    PutTwice(Stored(codec, vars), Stored(codec, WriteRecord(codec, vars, t)), t.id, t);
  }

  /** Running an interrupted `remove` again gives what it would have given without the interruption. */
  lemma RerunRemoveRepairs(codec: Codec, vars: Vars, id: string, order: seq<string>)
    requires Exact(codec, vars) && id != "INDEX" && Enumerates(order, Indexed(codec, vars) - {id})
    ensures var again := Remove(codec, Unset(vars, Key(id)), id, order);
            Exact(codec, again) && Stored(codec, again) == Stored(codec, vars) - {id}
  {
    RemoveInterrupted(codec, vars, id);
    RemoveRefines(codec, Unset(vars, Key(id)), id, order);
    RemoveTwice(Stored(codec, vars), Stored(codec, Unset(vars, Key(id))), id);
  }

  // ---- Why the id must not be empty or "INDEX" ----

  /** What `get` returns after `upsert`, for every transfer: the same transfer exactly when its id is neither
      empty nor "INDEX" and its bridge id is not empty. */
  lemma GetAfterUpsert(codec: Codec, vars: Vars, t: Transfer, order: seq<string>, newId: string)
    requires codec.Faithful() && newId != ""
    ensures GetTransfer(codec, Upsert(codec, vars, t, order), t.id, newId) == Ok(t) <==> Storable(t)
  {
    var written := WriteRecord(codec, vars, t);
    SetWrites(vars, t.id, codec.dumps(ToInternalDict(t)));
    SetWrites(written, "INDEX", codec.dumps(List(Strs(order))));
    KeyIsInjective(t.id, "INDEX");
    RoundTrip(t, newId);
    assert codec.loads(codec.dumps(List(Strs(order)))) == Some(List(Strs(order)));
    assert codec.loads(codec.dumps(ToInternalDict(t))) == Some(ToInternalDict(t));
  }

  // ---- list ----

  /** The loop of `list`: ids without a record are skipped, any other error ends it. */
  function ListOf(codec: Codec, vars: Vars, ids: seq<string>, newId: string): Read<seq<Transfer>>
  {
    if ids == [] then Ok([])
    else
      var before := ListOf(codec, vars, ids[..|ids| - 1], newId);
      if !before.Ok? then before
      else
        match GetTransfer(codec, vars, ids[|ids| - 1], newId)
        case Ok(t) => Ok(before.value + [t])
        case KeyMissing => before
        case Malformed => Malformed
  }

  /** `ts` is every stored transfer of `ids`, once, and no other. */
  ghost predicate Lists(codec: Codec, vars: Vars, ids: seq<string>, ts: seq<Transfer>)
  {
    && (forall i :: 0 <= i < |ts| ==> ts[i].id in ids && ReadAt(codec, vars, ts[i].id) == Ok(ts[i]))
    && (forall id :: id in ids && ReadAt(codec, vars, id).Ok? ==> ReadAt(codec, vars, id).value in ts)
    && (forall i, j :: 0 <= i < j < |ts| ==> ts[i].id != ts[j].id)
  }

  lemma ListsOneMore(codec: Codec, vars: Vars, front: seq<string>, last: string, ts: seq<Transfer>)
    requires Lists(codec, vars, front, ts) && last !in front
    requires ReadAt(codec, vars, last).Ok? ==> ReadAt(codec, vars, last).value.id == last
    ensures ReadAt(codec, vars, last).Ok? ==> Lists(codec, vars, front + [last], ts + [ReadAt(codec, vars, last).value])
    ensures !ReadAt(codec, vars, last).Ok? ==> Lists(codec, vars, front + [last], ts)
  {
    var r := ReadAt(codec, vars, last);
    forall id | id in front + [last] && id != last ensures id in front {
    }
    if r.Ok? {
      var ts' := ts + [r.value];
      assert ts'[|ts|] == r.value;
      forall id | id in front + [last] && ReadAt(codec, vars, id).Ok? ensures ReadAt(codec, vars, id).value in ts' {
      }
    }
  }

  /** `list` raises no error on a well formed store, and returns every stored transfer once and no other. */
  lemma {:induction false} ListIsTheContent(codec: Codec, vars: Vars, ids: seq<string>, newId: string)
    requires WellFormed(codec, vars) && Distinct(ids) && "INDEX" !in ids
    ensures ListOf(codec, vars, ids, newId).Ok? && Lists(codec, vars, ids, ListOf(codec, vars, ids, newId).value)
  {
    if ids != [] {
      var front, last := ids[..|ids| - 1], ids[|ids| - 1];
      ListIsTheContent(codec, vars, front, newId);
      ReadRecord(codec, vars, last, newId);
      assert last !in front;
      assert ids == front + [last];
      ListsOneMore(codec, vars, front, last, ListOf(codec, vars, front, newId).value);
    }
  }

  lemma ListedMeansStored(codec: Codec, vars: Vars, ts: seq<Transfer>)
    requires WellFormed(codec, vars) && Lists(codec, vars, GetIndex(codec, vars).value, ts)
    ensures forall t :: t in ts <==> t.id in Stored(codec, vars) && Stored(codec, vars)[t.id] == t
    ensures forall id :: id in Stored(codec, vars) ==> Stored(codec, vars)[id].id == id
  {
    StoredKeys(codec, vars);
    forall id | id in Stored(codec, vars) ensures Stored(codec, vars)[id].id == id {
      ReadRecord(codec, vars, id, "new");
    }
    forall t | t in ts ensures t.id in Stored(codec, vars) && Stored(codec, vars)[t.id] == t {
      var i :| 0 <= i < |ts| && ts[i] == t;
    }
  }

  // ---- The object ----

  class StatePersistor {
    const codec: Codec
    /** The global variables of Asterisk, shared with everything else that uses them. */
    var vars: Vars

    constructor (codec: Codec, vars: Vars)
      ensures this.codec == codec && this.vars == vars
    {
      this.codec := codec;
      this.vars := vars;
    }

    method Get(id: string, newId: string) returns (r: Read<Transfer>)
      ensures r == GetTransfer(codec, vars, id, newId)
      ensures Exact(codec, vars) && id != "INDEX" ==>
                r == if id in Stored(codec, vars) then Ok(Stored(codec, vars)[id]) else KeyMissing
    {
      r := GetTransfer(codec, vars, id, newId);
      if id != "INDEX" {
        ghost var exact := Exact(codec, vars);
        if exact {
          ReadRecord(codec, vars, id, newId);
          StoredKeys(codec, vars);
        }
      }
    }

    method List(newId: string) returns (r: Read<seq<Transfer>>)
      ensures WellFormed(codec, vars) ==> r.Ok? && Lists(codec, vars, GetIndex(codec, vars).value, r.value)
    {
      var index := GetIndex(codec, vars);
      if !index.Ok? {
        return Malformed;
      }
      var ids := index.value;
      var results: seq<Transfer> := [];
      var i := 0;
      while i < |ids|
        invariant 0 <= i <= |ids|
        invariant ListOf(codec, vars, ids[..i], newId) == Ok(results)
      {
        assert ids[..i + 1][..i] == ids[..i];
        var t := GetTransfer(codec, vars, ids[i], newId);
        if t.Ok? {
          results := results + [t.value];
        } else if t.Malformed? {
          ghost var whole := WellFormed(codec, vars);
          if whole {
            ReadRecord(codec, vars, ids[i], newId);
          }
          return Malformed;
        }
        i := i + 1;
      }
      r := Ok(results);
      assert ids[..i] == ids;
      ghost var whole := WellFormed(codec, vars);
      if whole {
        ListIsTheContent(codec, vars, ids, newId);
      }
    }

    /** Fails exactly when no stored transfer has the channel in one of its three roles. */
    method GetByChannel(channel: string, newId: string) returns (r: Read<Transfer>)
      ensures WellFormed(codec, vars) ==> !r.Malformed?
      ensures WellFormed(codec, vars) ==>
                (r.KeyMissing? <==>
                 forall id :: id in Stored(codec, vars) ==> !Stored(codec, vars)[id].Involves(channel))
      ensures WellFormed(codec, vars) && r.Ok? ==>
                r.value.id in Stored(codec, vars) && Stored(codec, vars)[r.value.id] == r.value
                    && r.value.Involves(channel)
    {
      var all := List(newId);
      if !all.Ok? {
        return Malformed;
      }
      var ts := all.value;
      ghost var whole := WellFormed(codec, vars);
      if whole {
        ListedMeansStored(codec, vars, ts);
      }
      var i := 0;
      while i < |ts|
        invariant 0 <= i <= |ts|
        invariant forall k :: 0 <= k < i ==> !ts[k].Involves(channel)
      {
        if ts[i].Involves(channel) {
          return Ok(ts[i]);
        }
        i := i + 1;
      }
      r := KeyMissing;
      if whole {
        forall id | id in Stored(codec, vars) ensures !Stored(codec, vars)[id].Involves(channel) {
          assert Stored(codec, vars)[id] in ts;
        }
      }
    }

    /** `list(index)`: the ids in the order in which the set gives them. */
    method Enumerate(ids: set<string>) returns (order: seq<string>)
      ensures Enumerates(order, ids)
    {
      order := [];
      var left := ids;
      while left != {}
        invariant left <= ids
        invariant forall id :: id in order <==> id in ids - left
        invariant Distinct(order)
        decreases left
      {
        var id :| id in left;
        assert id !in order;
        assert forall x :: x in order + [id] <==> x in order || x == id;
        order := order + [id];
        left := left - {id};
      }
    }

    /** Returns whether the index could be read; if not, the record is written and the source raises. */
    method Upsert(t: Transfer) returns (ok: bool)
      modifies this
      ensures WellFormed(codec, old(vars)) && Storable(t) ==> ok
      ensures old(ExactBut(codec, vars, t.id)) && Storable(t) ==>
                && Exact(codec, vars)
                && Stored(codec, vars) == old(Stored(codec, vars))[t.id := t]
                && OthersKept(old(vars), vars, t.id)
    {
      ghost var before := vars;
      vars := WriteRecord(codec, vars, t);
      var index := GetIndex(codec, vars);
      ghost var storable := WellFormed(codec, before) && Storable(t);
      if storable {
        WriteRecordKeeps(codec, before, t);
      }
      if !index.Ok? {
        return false;
      }
      var ids := (set id | id in index.value) + {t.id};
      var order := Enumerate(ids);
      vars := WriteIndex(codec, vars, order);
      if storable && ExactBut(codec, before, t.id) {
        UpsertRefines(codec, before, t, order);
      }
      return true;
    }

    method Remove(id: string) returns (ok: bool)
      modifies this
      ensures WellFormed(codec, old(vars)) && id != "INDEX" ==> ok
      ensures old(ExactBut(codec, vars, id)) && id != "INDEX" ==>
                && Exact(codec, vars)
                && Stored(codec, vars) == old(Stored(codec, vars)) - {id}
                && OthersKept(old(vars), vars, id)
    {
      ghost var before := vars;
      vars := Unset(vars, Key(id));
      var index := GetIndex(codec, vars);
      ghost var readable := WellFormed(codec, before) && id != "INDEX";
      if readable {
        UnsetRecordKeeps(codec, before, id);
      }
      if !index.Ok? {
        return false;
      }
      ghost var exact := readable && ExactBut(codec, before, id);
      if id !in index.value {
        if exact {
          assert Indexed(codec, before) - {id} == set x | x in index.value;
          RemoveRefines(codec, before, id, index.value);
        }
        return true;
      }
      var order := Enumerate((set x | x in index.value) - {id});
      vars := WriteIndex(codec, vars, order);
      if exact {
        RemoveRefines(codec, before, id, order);
      }
      return true;
    }
  }
}
