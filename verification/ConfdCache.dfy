/** `ConfdCache`: lines and trunks known by technology, each in several indices over the same records. */
module ConfdCache {
  import opened Wrappers

  datatype Key = Text(name: string) | Number(id: int) | NoKey

  datatype Record = Record(id: int, technology: string, name: string, tenant: string)

  /** technology -> index -> key -> record */
  type Table = map<string, map<string, map<Key, Record>>>

  datatype Place = Place(techno: string, index: string, key: Key)

  function At(c: Table, p: Place): Option<Record>
  {
    if p.techno in c && p.index in c[p.techno] && p.key in c[p.techno][p.index]
    then Some(c[p.techno][p.index][p.key]) else None
  }

  predicate Carries(c: Table, p: Place, id: int)
  {
    At(c, p).Some? && At(c, p).value.id == id
  }

  // ---- What the operations do, place by place ----

  /** The record is at these places, everything else is as before. */
  ghost predicate Added(c: Table, c': Table, places: set<Place>, r: Record)
  {
    forall p :: At(c', p) == if p in places then Some(r) else At(c, p)
  }

  /** Nothing carries the id any more, everything else is as before. */
  ghost predicate Deleted(c: Table, c': Table, id: int)
  {
    forall p :: At(c', p) == if Carries(c, p, id) then None else At(c, p)
  }

  /** Where a line goes: under its name, and under its user name if it has one. */
  function LinePlaces(techno: string, name: string, username: Option<string>): set<Place>
  {
    {Place(techno, "name", Text(name))}
    + if username.GetOr("") != "" then {Place(techno, "username", Text(username.value))} else {}
  }

  /** A trunk is also under its id. */
  function TrunkPlaces(techno: string, id: int, name: string, username: Option<string>): set<Place>
  {
    LinePlaces(techno, name, username) + {Place(techno, "id", Number(id))}
  }

  /** When the cache is loaded, a trunk is under its user name even if it has none. */
  function LoadedTrunkPlaces(techno: string, id: int, name: string, username: Key): set<Place>
  {
    {Place(techno, "name", Text(name)), Place(techno, "id", Number(id)), Place(techno, "username", username)}
  }

  // ---- What the indices keep ----

  /** Each entry agrees with its record: the technology, the name in the name index, the id in the id index. */
  ghost predicate Consistent(c: Table)
  {
    forall p :: At(c, p).Some? ==> Agrees(p, At(c, p).value)
  }

  predicate Agrees(p: Place, r: Record)
  {
    && p.techno == r.technology
    && (p.index == "name" ==> p.key == Text(r.name))
    && (p.index == "id" ==> p.key == Number(r.id))
  }

  /** Places for a record: they agree with it, and there is one in each index at most. */
  ghost predicate Fits(places: set<Place>, r: Record)
  {
    (forall p :: p in places ==> Agrees(p, r)) && (forall p, q :: BothIn(places, p, q) && p.index == q.index ==> p == q)
  }

  predicate BothIn(places: set<Place>, p: Place, q: Place) { p in places && q in places }

  /** In each index an id is at one place at most, in whatever technology. */
  ghost predicate EachIdOnce(c: Table)
  {
    forall p, q :: SameId(c, p, q) && p.index == q.index ==> p == q
  }

  predicate SameId(c: Table, p: Place, q: Place)
  {
    At(c, p).Some? && At(c, q).Some? && At(c, p).value.id == At(c, q).value.id
  }

  ghost predicate Absent(c: Table, id: int)
  {
    forall p :: !Carries(c, p, id)
  }

  lemma DeleteKeeps(c: Table, c': Table, id: int)
    requires Deleted(c, c', id)
    ensures Absent(c', id)
    ensures forall p :: !Carries(c, p, id) ==> At(c', p) == At(c, p)
    ensures Consistent(c) ==> Consistent(c')
    ensures EachIdOnce(c) ==> EachIdOnce(c')
  {
    if EachIdOnce(c) {
      forall p, q | SameId(c', p, q) && p.index == q.index ensures p == q {
        assert SameId(c, p, q);
      }
    }
  }

  /** No place that is not among these, but carries the id, is in the index of one of them. */
  ghost predicate Unrivalled(c: Table, places: set<Place>, id: int)
  {
    forall p, q :: p !in places && Carries(c, p, id) && q in places ==> p.index != q.index
  }

  /** Adding a record that agrees with its places: the entries stay consistent, and ids stay unique exactly if
      the id is nowhere else in the indices that the record goes to. */
  lemma AddKeeps(c: Table, c': Table, places: set<Place>, r: Record)
    requires Added(c, c', places, r)
    requires Fits(places, r)
    ensures Consistent(c) ==> Consistent(c')
    ensures EachIdOnce(c) ==> (EachIdOnce(c') <==> Unrivalled(c, places, r.id))
  {
    if EachIdOnce(c) && Unrivalled(c, places, r.id) {
      forall p, q | SameId(c', p, q) && p.index == q.index ensures p == q {
        assert BothIn(places, p, q) ==> p == q;
        assert p in places && q !in places ==> Carries(c, q, r.id);
        assert q in places && p !in places ==> Carries(c, p, r.id);
        assert p !in places && q !in places ==> SameId(c, p, q);
      }
    }
    if EachIdOnce(c') {
      forall p, q | p !in places && Carries(c, p, r.id) && q in places ensures p.index != q.index {
        assert SameId(c', p, q);
      }
    }
  }

  /** The places that the cache chooses for a line, and for a trunk, also while it loads, fit its record. */
  lemma PlacesFit(r: Record, username: Option<string>, usernameKey: Key)
    ensures Fits(LinePlaces(r.technology, r.name, username), r)
    ensures Fits(TrunkPlaces(r.technology, r.id, r.name, username), r)
    ensures Fits(LoadedTrunkPlaces(r.technology, r.id, r.name, usernameKey), r)
  {
    if username.GetOr("") == "" {
      assert LinePlaces(r.technology, r.name, username) == {Place(r.technology, "name", Text(r.name))};
    } else {
      assert LinePlaces(r.technology, r.name, username)
          == {Place(r.technology, "name", Text(r.name)), Place(r.technology, "username", Text(username.value))};
    }
  }

  /** After an update, which deletes and adds: the id is at exactly the given places, so once in each index it
      belongs to; the places of other ids are kept unless the new record took them. */
  lemma UpdateIsExact(c: Table, middle: Table, c': Table, places: set<Place>, r: Record)
    requires Deleted(c, middle, r.id) && Added(middle, c', places, r)
    requires Fits(places, r)
    ensures forall p :: Carries(c', p, r.id) <==> p in places
    ensures forall p :: p in places ==> At(c', p) == Some(r)
    ensures forall p :: p !in places && !Carries(c, p, r.id) ==> At(c', p) == At(c, p)
    ensures Consistent(c) ==> Consistent(c')
    ensures EachIdOnce(c) ==> EachIdOnce(c')
  {
    DeleteKeeps(c, middle, r.id);
    AddKeeps(middle, c', places, r);
    assert Absent(middle, r.id) ==> Unrivalled(middle, places, r.id);
  }

  // ---- Loading ----

  datatype Item = Item(r: Record, places: set<Place>)

  /** What the last item for a place says. */
  function LastAt(items: seq<Item>, p: Place): Option<Record>
  {
    if items == [] then None
    else if p in items[|items| - 1].places then Some(items[|items| - 1].r)
    else LastAt(items[..|items| - 1], p)
  }

  /** Everything listed is there, the last one where places collide; what was there before is kept elsewhere. */
  ghost predicate Loaded(c: Table, c': Table, items: seq<Item>)
  {
    forall p :: At(c', p) == if LastAt(items, p).Some? then LastAt(items, p) else At(c, p)
  }

  lemma LoadOneMore(c: Table, middle: Table, c': Table, items: seq<Item>, item: Item)
    requires Loaded(c, middle, items) && Added(middle, c', item.places, item.r)
    ensures Loaded(c, c', items + [item])
  {
    assert (items + [item])[..|items + [item]| - 1] == items;
  }

  lemma {:induction false} LastIsAnItem(items: seq<Item>, p: Place)
    ensures LastAt(items, p).Some? ==>
              exists i :: 0 <= i < |items| && p in items[i].places && LastAt(items, p) == Some(items[i].r)
  {
    if items != [] && p !in items[|items| - 1].places {
      LastIsAnItem(items[..|items| - 1], p);
    }
  }

  predicate Lists(items: seq<Item>, p: Place, id: int)
  {
    LastAt(items, p).Some? && LastAt(items, p).value.id == id
  }

  /** No id that the listing leaves at a place is, in the same index, at another place: neither in the listing,
      nor where the listing says nothing and an event put it before. */
  ghost predicate NoClash(c: Table, items: seq<Item>)
  {
    forall p: Place, q: Place :: p != q && p.index == q.index && LastAt(items, p).Some? ==>
      !Lists(items, q, LastAt(items, p).value.id)
          && (LastAt(items, q).None? ==> !Carries(c, q, LastAt(items, p).value.id))
  }

  /** Loading keeps each entry in agreement with its record, and ids unique exactly if nothing clashes. */
  lemma LoadKeeps(c: Table, c': Table, items: seq<Item>)
    requires Loaded(c, c', items)
    requires forall i :: 0 <= i < |items| ==> Fits(items[i].places, items[i].r)
    ensures Consistent(c) ==> Consistent(c')
    ensures EachIdOnce(c) ==> (EachIdOnce(c') <==> NoClash(c, items))
  {
    if Consistent(c) {
      forall p | At(c', p).Some? ensures Agrees(p, At(c', p).value) {
        LastIsAnItem(items, p);
      }
    }
    if EachIdOnce(c) && NoClash(c, items) {
      forall p, q | SameId(c', p, q) && p.index == q.index ensures p == q {
        assert LastAt(items, p).None? && LastAt(items, q).None? ==> SameId(c, p, q);
      }
    }
    if EachIdOnce(c') {
      forall p: Place, q: Place | p != q && p.index == q.index && LastAt(items, p).Some?
        ensures !Lists(items, q, LastAt(items, p).value.id)
            && (LastAt(items, q).None? ==> !Carries(c, q, LastAt(items, p).value.id)) {
        assert !SameId(c', p, q);
      }
    }
  }

  /** A listing in which each id comes once clashes with nothing when no event came before it. */
  lemma FirstLoadHasNoClash(items: seq<Item>)
    requires forall i :: 0 <= i < |items| ==> Fits(items[i].places, items[i].r)
    requires forall i, j :: 0 <= i < j < |items| ==> items[i].r.id != items[j].r.id
    ensures NoClash(map[], items)
  {
    forall p: Place, q: Place | p != q && p.index == q.index && LastAt(items, p).Some?
        ensures !Lists(items, q, LastAt(items, p).value.id) {
      LastIsAnItem(items, p);
      LastIsAnItem(items, q);
      if Lists(items, q, LastAt(items, p).value.id) {
        var i :| 0 <= i < |items| && p in items[i].places && LastAt(items, p) == Some(items[i].r);
        var j :| 0 <= j < |items| && q in items[j].places && LastAt(items, q) == Some(items[j].r);
        assert i == j && BothIn(items[i].places, p, q);
      }
    }
  }

  // ---- Any sequence of events ----

  datatype Event =
    | AddEvent(r: Record, places: set<Place>)
    | DeleteEvent(id: int)
    | UpdateEvent(r: Record, places: set<Place>)
    | LoadEvent(items: seq<Item>)

  ghost predicate Proper(e: Event)
  {
    match e
    case AddEvent(r, places) => Fits(places, r)
    case DeleteEvent(_) => true
    case UpdateEvent(r, places) => Fits(places, r)
    case LoadEvent(items) => forall i :: 0 <= i < |items| ==> Fits(items[i].places, items[i].r)
  }

  ghost predicate Applies(c: Table, e: Event, c': Table)
  {
    match e
    case AddEvent(r, places) => Added(c, c', places, r)
    case DeleteEvent(id) => Deleted(c, c', id)
    case UpdateEvent(r, places) => exists middle :: Deleted(c, middle, r.id) && Added(middle, c', places, r)
    case LoadEvent(items) => Loaded(c, c', items)
  }

  ghost predicate IsHistory(tables: seq<Table>, events: seq<Event>)
  {
    && |tables| == |events| + 1 && tables[0] == map[]
    && forall i :: 0 <= i < |events| ==> Proper(events[i]) && Applies(tables[i], events[i], tables[i + 1])
  }

  /** What an event may not bring: an id that is already somewhere else in the same index. */
  ghost predicate Unambiguous(c: Table, e: Event)
  {
    match e
    case AddEvent(r, places) => Unrivalled(c, places, r.id)
    case DeleteEvent(_) => true
    case UpdateEvent(_, _) => true
    case LoadEvent(items) => NoClash(c, items)
  }

  lemma EventKeeps(c: Table, e: Event, c': Table)
    requires Proper(e) && Applies(c, e, c')
    ensures Consistent(c) ==> Consistent(c')
    ensures EachIdOnce(c) ==> (EachIdOnce(c') <==> Unambiguous(c, e))
  {
    match e
    case AddEvent(r, places) => AddKeeps(c, c', places, r);
    case DeleteEvent(id) => DeleteKeeps(c, c', id);
    case UpdateEvent(r, places) =>
      var middle :| Deleted(c, middle, r.id) && Added(middle, c', places, r);
      UpdateIsExact(c, middle, c', places, r);
    case LoadEvent(items) => LoadKeeps(c, c', items);
  }

  /** Over any sequence of events and loads every entry agrees with its record; and each id has been at most
      once in each index all the time exactly if no event brought it a second time. */
  lemma {:induction false} IndicesStayConsistent(tables: seq<Table>, events: seq<Event>, n: nat)
    requires IsHistory(tables, events) && n < |tables|
    ensures Consistent(tables[n])
    ensures (forall m :: 0 <= m <= n ==> EachIdOnce(tables[m]))
        <==> (forall i :: 0 <= i < n ==> Unambiguous(tables[i], events[i]))
  {
    if n > 0 {
      IndicesStayConsistent(tables, events, n - 1);
      EventKeeps(tables[n - 1], events[n - 1], tables[n]);
    }
  }

  /** An id that is added twice, the second time under another name, keeps answering to the first. */
  lemma AddingTwiceKeepsTheOldName(c: Table, c1: Table, c2: Table, a: Record, b: Record)
    requires a.id == b.id && a.technology == b.technology && a.name != b.name
    requires Added(c, c1, LinePlaces(a.technology, a.name, None), a)
        && Added(c1, c2, LinePlaces(b.technology, b.name, None), b)
    ensures At(c2, Place(a.technology, "name", Text(a.name))) == Some(a)
    ensures At(c2, Place(b.technology, "name", Text(b.name))) == Some(b)
    ensures !EachIdOnce(c2)
  {
    var p, q := Place(a.technology, "name", Text(a.name)), Place(b.technology, "name", Text(b.name));
    assert p in LinePlaces(a.technology, a.name, None) && q in LinePlaces(b.technology, b.name, None);
    assert p !in LinePlaces(b.technology, b.name, None);
    assert At(c1, p) == Some(a);
    assert SameId(c2, p, q);
  }

  // ---- The nested dictionaries ----

  /** The indices of a technology exist as soon as the technology does. */
  predicate HasIndices(c: Table, indices: set<string>)
  {
    forall techno :: techno in c ==> indices <= c[techno].Keys
  }

  function WithTechno(c: Table, techno: string, indices: set<string>): (c': Table)
    ensures c'.Keys == c.Keys + {techno} && forall p :: At(c', p) == At(c, p)
  {
    if techno in c then c else c[techno := map index | index in indices :: map[]]
  }

  function WithIndex(c: Table, techno: string, index: string): (c': Table)
    requires techno in c
    ensures techno in c' && index in c'[techno] && forall p :: At(c', p) == At(c, p)
  {
    if index in c[techno] then c else c[techno := c[techno][index := map[]]]
  }

  function Put(c: Table, p: Place, r: Record): (c': Table)
    requires p.techno in c && p.index in c[p.techno]
    ensures forall q :: At(c', q) == if q == p then Some(r) else At(c, q)
  {
    c[p.techno := c[p.techno][p.index := c[p.techno][p.index][p.key := r]]]
  }

  /** Deleting an entry fails in the source when it is not there. */
  function Drop(c: Table, p: Place): (c': Table)
    requires At(c, p).Some?
    ensures forall q :: At(c', q) == if q == p then None else At(c, q)
  {
    c[p.techno := c[p.techno][p.index := c[p.techno][p.index] - {p.key}]]
  }

  function ConfdTechno(techno: string): string
  {
    match techno
    case "PJSIP" => "sip"
    case "IAX2" => "iax"
    case "SCCP" => "sccp"
    case _ => techno
  }

  // ---- What confd lists ----

  datatype LineDto = LineDto(id: int, protocol: string, name: string, tenant: string)

  datatype Endpoint =
    | Sip(name: string, options: seq<(string, string)>)
    | Iax(name: string)
    | Custom(interface: string)
    | NoEndpoint

  datatype TrunkDto = TrunkDto(id: int, tenant: string, endpoint: Endpoint)

  datatype Confd = Confd(lines: seq<LineDto>, trunks: seq<TrunkDto>)

  function LineItem(line: LineDto): Item
  {
    Item(Record(line.id, line.protocol, line.name, line.tenant), {Place(line.protocol, "name", Text(line.name))})
  }

  /** The user name of a SIP trunk is the value of its first `client_uri` option. */
  function ClientUri(options: seq<(string, string)>): Key
  {
    if options == [] then NoKey
    else if options[0].0 == "client_uri" then Text(options[0].1)
    else ClientUri(options[1..])
  }

  function TrunkItem(trunk: TrunkDto): Option<Item>
  {
    match trunk.endpoint
    case Sip(name, options) => Some(TrunkItemOf(trunk, "sip", name, ClientUri(options)))
    case Iax(name) => Some(TrunkItemOf(trunk, "iax", name, Text(name)))
    case Custom(interface) => Some(TrunkItemOf(trunk, "custom", interface, Text(interface)))
    case NoEndpoint => None
  }

  function TrunkItemOf(trunk: TrunkDto, techno: string, name: string, username: Key): Item
  {
    Item(Record(trunk.id, techno, name, trunk.tenant), LoadedTrunkPlaces(techno, trunk.id, name, username))
  }

  /** The technologies of the trunks that confd lists. */
  function Technologies(trunks: seq<TrunkDto>): set<string>
  {
    set trunk | trunk in trunks && TrunkItem(trunk).Some? :: TrunkItem(trunk).value.r.technology
  }

  lemma OneMoreTechnology(trunks: seq<TrunkDto>, i: nat)
    requires i < |trunks|
    ensures var item := TrunkItem(trunks[i]);
            Technologies(trunks[..i + 1])
            == Technologies(trunks[..i]) + if item.Some? then {item.value.r.technology} else {}
  {
    assert trunks[..i + 1] == trunks[..i] + [trunks[i]];
  }

  function LineItems(lines: seq<LineDto>): seq<Item>
  {
    if lines == [] then [] else LineItems(lines[..|lines| - 1]) + [LineItem(lines[|lines| - 1])]
  }

  function TrunkItems(trunks: seq<TrunkDto>): seq<Item>
  {
    if trunks == [] then []
    else
      var before, last := TrunkItems(trunks[..|trunks| - 1]), TrunkItem(trunks[|trunks| - 1]);
      if last.Some? then before + [last.value] else before
  }

  /** What confd lists is a proper load. */
  lemma {:induction false} LineListingFits(lines: seq<LineDto>)
    ensures Proper(LoadEvent(LineItems(lines)))
  {
    if lines != [] {
      LineListingFits(lines[..|lines| - 1]);
      var r := LineItem(lines[|lines| - 1]).r;
      PlacesFit(r, None, NoKey);
      assert LineItem(lines[|lines| - 1]).places == LinePlaces(r.technology, r.name, None);
    }
  }

  lemma {:induction false} TrunkListingFits(trunks: seq<TrunkDto>)
    ensures Proper(LoadEvent(TrunkItems(trunks)))
  {
    if trunks != [] {
      TrunkListingFits(trunks[..|trunks| - 1]);
      TrunkItemFits(trunks[|trunks| - 1]);
    }
  }

  lemma TrunkItemFits(trunk: TrunkDto)
    ensures var item := TrunkItem(trunk); item.Some? ==> Fits(item.value.places, item.value.r)
  {
    var item := TrunkItem(trunk);
    if item.Some? {
      var username :=
        match trunk.endpoint
        case Sip(_, options) => ClientUri(options)
        case Iax(name) => Text(name)
        case Custom(interface) => Text(interface)
        case NoEndpoint => NoKey;
      PlacesFit(item.value.r, None, username);
    }
  }

  // ---- What can be found ----

  /** The names of Asterisk for three technologies, and those of confd; any other one is the same in both. */
  predicate SameTechnology(asterisk: string, confd: string)
  {
    || (asterisk == "PJSIP" && confd == "sip") || (asterisk == "IAX2" && confd == "iax")
    || (asterisk == "SCCP" && confd == "sccp")
    || (asterisk != "PJSIP" && asterisk != "IAX2" && asterisk != "SCCP" && confd == asterisk)
  }

  predicate IsLine(line: LineDto, techno: string, name: string) { line.protocol == techno && line.name == name }

  /** The i-th line is the last one that confd lists with this technology and name. */
  predicate IsLastLine(lines: seq<LineDto>, i: int, techno: string, name: string)
  {
    && 0 <= i < |lines| && IsLine(lines[i], techno, name)
    && forall j :: i < j < |lines| ==> !IsLine(lines[j], techno, name)
  }

  predicate NoSuchLine(lines: seq<LineDto>, techno: string, name: string)
  {
    forall i :: 0 <= i < |lines| ==> !IsLine(lines[i], techno, name)
  }

  lemma {:induction false} LastLineAt(lines: seq<LineDto>, techno: string, name: string)
    ensures var r := LastAt(LineItems(lines), Place(techno, "name", Text(name)));
            && (r.None? <==> NoSuchLine(lines, techno, name))
            && forall i :: IsLastLine(lines, i, techno, name) ==>
                 r == Some(Record(lines[i].id, techno, name, lines[i].tenant))
  {
    if lines != [] {
      var n := |lines| - 1;
      LastLineAt(lines[..n], techno, name);
      assert LineItems(lines)[..|LineItems(lines)| - 1] == LineItems(lines[..n]);
      assert NoSuchLine(lines, techno, name)
        <==> NoSuchLine(lines[..n], techno, name) && !IsLine(lines[n], techno, name);
      forall i | IsLastLine(lines, i, techno, name)
        ensures IsLine(lines[n], techno, name) ==> i == n
        ensures !IsLine(lines[n], techno, name) ==> IsLastLine(lines[..n], i, techno, name) {
      }
    }
  }

  /** What a loaded cache finds for a line: the last one that confd lists with its technology and name, or else what an
      event had put there. */
  lemma LoadedLine(c: Table, c': Table, lines: seq<LineDto>, techno: string, name: string)
    requires Loaded(c, c', LineItems(lines))
    ensures forall i :: IsLastLine(lines, i, techno, name) ==>
              At(c', Place(techno, "name", Text(name))) == Some(Record(lines[i].id, techno, name, lines[i].tenant))
    ensures NoSuchLine(lines, techno, name) ==>
              At(c', Place(techno, "name", Text(name))) == At(c, Place(techno, "name", Text(name)))
  {
    LastLineAt(lines, techno, name);
  }

  /** The user name in the options of a SIP trunk: the first `client_uri`, if there is one. */
  predicate IsUsername(options: seq<(string, string)>, key: Key)
  {
    if key.NoKey? then forall i :: 0 <= i < |options| ==> options[i].0 != "client_uri"
    else key.Text? && exists i :: 0 <= i < |options| && options[i] == ("client_uri", key.name)
                                  && forall j :: 0 <= j < i ==> options[j].0 != "client_uri"
  }

  lemma {:induction false} UsernameIsFirst(options: seq<(string, string)>, key: Key)
    ensures IsUsername(options, key) <==> key == ClientUri(options)
  {
    if options != [] {
      UsernameIsFirst(options[1..], key);
      if options[0].0 != "client_uri" {
        assert forall i :: 0 < i < |options| ==> options[i] == options[1..][i - 1];
        assert IsUsername(options, key) <==> IsUsername(options[1..], key);
      } else {
        assert options[0] == ("client_uri", options[0].1);
      }
    }
  }

  /** A trunk of this technology, name and user name is known by this key in this index. */
  predicate IsKnownBy(p: Place, id: int, techno: string, name: string, username: Key)
  {
    && p.techno == techno
    && ((p.index == "name" && p.key == Text(name)) || (p.index == "id" && p.key == Number(id))
        || (p.index == "username" && p.key == username))
  }

  /** The trunk can be found at this place. */
  predicate IsTrunk(trunk: TrunkDto, p: Place)
  {
    match trunk.endpoint
    case Sip(name, options) =>
      || (IsKnownBy(p, trunk.id, "sip", name, Text(name)) && p.index != "username")
      || (p.techno == "sip" && p.index == "username" && IsUsername(options, p.key))
    case Iax(name) => IsKnownBy(p, trunk.id, "iax", name, Text(name))
    case Custom(interface) => IsKnownBy(p, trunk.id, "custom", interface, Text(interface))
    case NoEndpoint => false
  }

  function EndpointName(endpoint: Endpoint): string
  {
    match endpoint
    case Sip(name, _) => name
    case Iax(name) => name
    case Custom(interface) => interface
    case NoEndpoint => ""
  }

  predicate IsLastTrunk(trunks: seq<TrunkDto>, i: int, p: Place)
  {
    0 <= i < |trunks| && IsTrunk(trunks[i], p) && forall j :: i < j < |trunks| ==> !IsTrunk(trunks[j], p)
  }

  predicate NoSuchTrunk(trunks: seq<TrunkDto>, p: Place)
  {
    forall i :: 0 <= i < |trunks| ==> !IsTrunk(trunks[i], p)
  }

  lemma TrunkIsWhere(trunk: TrunkDto, p: Place)
    ensures IsTrunk(trunk, p) <==> TrunkItem(trunk).Some? && p in TrunkItem(trunk).value.places
    ensures IsTrunk(trunk, p) ==>
              TrunkItem(trunk).value.r == Record(trunk.id, p.techno, EndpointName(trunk.endpoint), trunk.tenant)
  {
    if trunk.endpoint.Sip? {
      UsernameIsFirst(trunk.endpoint.options, p.key);
    }
  }

  lemma {:induction false} LastTrunkAt(trunks: seq<TrunkDto>, p: Place)
    ensures var r := LastAt(TrunkItems(trunks), p);
            && (r.None? <==> NoSuchTrunk(trunks, p))
            && forall i :: IsLastTrunk(trunks, i, p) ==>
                 r == Some(Record(trunks[i].id, p.techno, EndpointName(trunks[i].endpoint), trunks[i].tenant))
  {
    if trunks != [] {
      var n := |trunks| - 1;
      LastTrunkAt(trunks[..n], p);
      TrunkIsWhere(trunks[n], p);
      if TrunkItem(trunks[n]).Some? {
        assert TrunkItems(trunks)[..|TrunkItems(trunks)| - 1] == TrunkItems(trunks[..n]);
      }
      assert NoSuchTrunk(trunks, p) <==> NoSuchTrunk(trunks[..n], p) && !IsTrunk(trunks[n], p);
      forall i | IsLastTrunk(trunks, i, p)
        ensures IsTrunk(trunks[n], p) ==> i == n
        ensures !IsTrunk(trunks[n], p) ==> IsLastTrunk(trunks[..n], i, p) {
      }
    }
  }

  /** What a loaded cache finds for a trunk, by its name, id or user name: the last one that confd lists there, or else
      what an event had put there. */
  lemma LoadedTrunk(c: Table, c': Table, trunks: seq<TrunkDto>, p: Place)
    requires Loaded(c, c', TrunkItems(trunks))
    ensures forall i :: IsLastTrunk(trunks, i, p) ==>
              At(c', p) == Some(Record(trunks[i].id, p.techno, EndpointName(trunks[i].endpoint), trunks[i].tenant))
    ensures NoSuchTrunk(trunks, p) ==> At(c', p) == At(c, p)
  {
    LastTrunkAt(trunks, p);
  }

  /** A lookup after the load found the last trunk that confd lists under the technology, or else what was there. */
  ghost predicate FoundAsListed(trunks: seq<TrunkDto>, before: Table, techno: string, index: string, key: Key,
                                r: Option<Record>)
  {
    forall confd :: SameTechnology(techno, confd) ==>
      var p := Place(confd, index, key);
      && (forall i :: IsLastTrunk(trunks, i, p) ==>
            r == Some(Record(trunks[i].id, confd, EndpointName(trunks[i].endpoint), trunks[i].tenant)))
      && (NoSuchTrunk(trunks, p) ==> r == At(before, p))
  }

  lemma LoadedIsFound(c: Table, c': Table, trunks: seq<TrunkDto>, techno: string, index: string, key: Key,
                      r: Option<Record>)
    requires Loaded(c, c', TrunkItems(trunks))
    requires forall confd :: SameTechnology(techno, confd) ==> r == At(c', Place(confd, index, key))
    ensures FoundAsListed(trunks, c, techno, index, key, r)
  {
    forall confd | SameTechnology(techno, confd)
      ensures forall i :: IsLastTrunk(trunks, i, Place(confd, index, key)) ==>
                r == Some(Record(trunks[i].id, confd, EndpointName(trunks[i].endpoint), trunks[i].tenant))
      ensures NoSuchTrunk(trunks, Place(confd, index, key)) ==> r == At(c, Place(confd, index, key)) {
      LoadedTrunk(c, c', trunks, Place(confd, index, key));
    }
  }

  /** A line or trunk that is added is found by its name, and by its user name if it has one, a trunk by its id; and
      everywhere else is found what was found before. */
  lemma AddedIsFound(c: Table, c': Table, r: Record, username: Option<string>, withId: bool)
    requires Added(c, c', if withId then TrunkPlaces(r.technology, r.id, r.name, username)
                          else LinePlaces(r.technology, r.name, username), r)
    ensures forall p: Place ::
              At(c', p) == if IsKnownAs(p, r, username, withId) then Some(r) else At(c, p)
  {
  }

  /** Its name, its user name if it has one, or its id. */
  predicate IsKnownAs(p: Place, r: Record, username: Option<string>, withId: bool)
  {
    && p.techno == r.technology
    && match p.index
       case "name" => p.key == Text(r.name)
       case "username" => username.Some? && username.value != "" && p.key == Text(username.value)
       case "id" => withId && p.key == Number(r.id)
       case _ => false
  }

  // ---- The object ----

  const LINE_INDICES: set<string> := {"name"}
  const TRUNK_INDICES: set<string> := {"id", "name", "username"}

  /** The places that carry an id, found by looking through every dictionary before anything is removed. */
  method ToRemove(c: Table, id: int) returns (places: seq<Place>)
    ensures forall p :: p in places <==> Carries(c, p, id)
    ensures forall i, j :: 0 <= i < j < |places| ==> places[i] != places[j]
  {
    places := [];
    var technos := c.Keys;
    while technos != {}
      invariant technos <= c.Keys
      invariant forall p :: p in places <==> Carries(c, p, id) && p.techno !in technos
      invariant forall i, j :: 0 <= i < j < |places| ==> places[i] != places[j]
      decreases technos
    {
      var techno :| techno in technos;
      var indices := c[techno].Keys;
      while indices != {}
        invariant indices <= c[techno].Keys
        invariant forall p :: p in places <==>
            Carries(c, p, id) && (p.techno !in technos || (p.techno == techno && p.index !in indices))
        invariant forall i, j :: 0 <= i < j < |places| ==> places[i] != places[j]
        decreases indices
      {
        var index :| index in indices;
        var keys := c[techno][index].Keys;
        while keys != {}
          invariant keys <= c[techno][index].Keys
          invariant forall p :: p in places <==>
            Carries(c, p, id) && (p.techno !in technos
                || (p.techno == techno && (p.index !in indices || (p.index == index && p.key !in keys))))
          invariant forall i, j :: 0 <= i < j < |places| ==> places[i] != places[j]
          decreases keys
        {
          var key :| key in keys;
          if c[techno][index][key].id == id {
            assert Carries(c, Place(techno, index, key), id) && Place(techno, index, key) !in places;
            places := places + [Place(techno, index, key)];
          }
          keys := keys - {key};
        }
        indices := indices - {index};
      }
      technos := technos - {techno};
    }
  }

  ghost predicate Dropped(c: Table, c': Table, places: seq<Place>)
  {
    forall p :: At(c', p) == if p in places then None else At(c, p)
  }

  lemma DropOneMore(c: Table, middle: Table, places: seq<Place>, p: Place)
    requires Dropped(c, middle, places) && p !in places && At(c, p).Some?
    ensures At(middle, p).Some? && Dropped(c, Drop(middle, p), places + [p])
  {
    assert forall q :: q in places + [p] <==> q in places || q == p;
  }

  lemma AddBoth(c: Table, c1: Table, c2: Table, a: set<Place>, b: set<Place>, r: Record)
    requires Added(c, c1, a, r) && Added(c1, c2, b, r)
    ensures Added(c, c2, a + b, r)
  {
  }

  /** Where a technology would have a trunk under its id. */
  function IdPlace(techno: string, id: int): Place { Place(ConfdTechno(techno), "id", Number(id)) }

  ghost predicate IsOrderOf(order: seq<string>, keys: set<string>)
  {
    (forall k :: k in keys <==> k in order) && (forall i, j :: 0 <= i < j < |order| ==> order[i] != order[j])
  }

  lemma AllLookedAt(c: Table, order: seq<string>, id: int)
    requires IsOrderOf(order, c.Keys) && forall j :: 0 <= j < |order| ==> At(c, IdPlace(order[j], id)).None?
    ensures forall techno :: techno in c ==> At(c, IdPlace(techno, id)).None?
  {
  }

  /** A dictionary that only gained keys has the size it had exactly if it gained none. */
  lemma SizeTells(before: set<string>, after: set<string>)
    requires before <= after
    ensures |before| == |after| <==> before == after
  {
    assert after == before + (after - before);
  }

  class ConfdCache {
    var lines: Table
    var trunks: Table
    var initialized: bool

    ghost predicate Valid()
      reads this
    {
      HasIndices(lines, LINE_INDICES) && HasIndices(trunks, TRUNK_INDICES)
    }

    /** Both tables hold what confd lists, over what was there before. */
    ghost predicate IsLoaded(linesBefore: Table, trunksBefore: Table, confd: Confd)
      reads this
    {
      Loaded(linesBefore, lines, LineItems(confd.lines)) && Loaded(trunksBefore, trunks, TrunkItems(confd.trunks))
    }

    constructor ()
      ensures Valid() && lines == map[] && trunks == map[] && !initialized
    {
      lines, trunks, initialized := map[], map[], false;
    }

    // ---- Events ----

    method AddLine(techno: string, id: int, name: string, username: Option<string>, tenant: string)
      requires Valid()
      modifies this`lines
      ensures Valid()
      ensures Added(old(lines), lines, LinePlaces(techno, name, username), Record(id, techno, name, tenant))
    {
      var value := Record(id, techno, name, tenant);
      lines := WithTechno(lines, techno, {"name", "username"});
      StoreLine(techno, "name", Text(name), value);
      if username.GetOr("") != "" {
        ghost var middle := lines;
        lines := WithIndex(lines, techno, "username");
        StoreLine(techno, "username", Text(username.value), value);
        AddBoth(old(lines), middle, lines, {Place(techno, "name", Text(name))},
            {Place(techno, "username", Text(username.value))}, value);
      }
    }

    method StoreLine(techno: string, index: string, key: Key, value: Record)
      requires Valid() && techno in lines && index in lines[techno]
      modifies this`lines
      ensures Valid() && techno in lines && lines.Keys == old(lines).Keys
      ensures Added(old(lines), lines, {Place(techno, index, key)}, value)
    {
      lines := Put(lines, Place(techno, index, key), value);
    }

    method StoreTrunk(techno: string, index: string, key: Key, value: Record)
      requires Valid() && techno in trunks && index in trunks[techno]
      modifies this`trunks
      ensures Valid() && techno in trunks && trunks.Keys == old(trunks).Keys
      ensures Added(old(trunks), trunks, {Place(techno, index, key)}, value)
    {
      trunks := Put(trunks, Place(techno, index, key), value);
    }

    method StoreTrunkTwice(techno: string, value: Record)
      requires Valid()
      modifies this`trunks
      ensures Valid() && trunks.Keys == old(trunks).Keys + {techno}
      ensures Added(old(trunks), trunks, {Place(techno, "name", Text(value.name)),
          Place(techno, "id", Number(value.id))}, value)
    {
      trunks := WithTechno(trunks, techno, TRUNK_INDICES);
      StoreTrunk(techno, "name", Text(value.name), value);
      ghost var middle := trunks;
      StoreTrunk(techno, "id", Number(value.id), value);
      AddBoth(old(trunks), middle, trunks, {Place(techno, "name", Text(value.name))},
          {Place(techno, "id", Number(value.id))}, value);
    }

    method AddTrunk(techno: string, id: int, name: string, username: Option<string>, tenant: string)
      requires Valid()
      modifies this`trunks
      ensures Valid()
      ensures Added(old(trunks), trunks, TrunkPlaces(techno, id, name, username), Record(id, techno, name, tenant))
    {
      var value := Record(id, techno, name, tenant);
      StoreTrunkTwice(techno, value);
      ghost var two := {Place(techno, "name", Text(name)), Place(techno, "id", Number(id))};
      if username.GetOr("") != "" {
        ghost var middle := trunks;
        StoreTrunk(techno, "username", Text(username.value), value);
        AddBoth(old(trunks), middle, trunks, two, {Place(techno, "username", Text(username.value))}, value);
        assert TrunkPlaces(techno, id, name, username) == two + {Place(techno, "username", Text(username.value))};
      } else {
        assert TrunkPlaces(techno, id, name, username) == two;
      }
    }

    /** Every entry that is deleted is there when its turn comes. */
    method DeleteLine(id: int)
      requires Valid()
      modifies this`lines
      ensures Valid()
      ensures Deleted(old(lines), lines, id)
    {
      var places := ToRemove(lines, id);
      var i := 0;
      while i < |places|
        invariant 0 <= i <= |places|
        invariant Valid()
        invariant Dropped(old(lines), lines, places[..i])
      {
        assert places[i] !in places[..i] && Carries(old(lines), places[i], id);
        DropOneMore(old(lines), lines, places[..i], places[i]);
        lines := Drop(lines, places[i]);
        assert places[..i + 1] == places[..i] + [places[i]];
        i := i + 1;
      }
      assert places[..i] == places;
    }

    method DeleteTrunk(id: int)
      requires Valid()
      modifies this`trunks
      ensures Valid()
      ensures Deleted(old(trunks), trunks, id)
    {
      var places := ToRemove(trunks, id);
      var i := 0;
      while i < |places|
        invariant 0 <= i <= |places|
        invariant Valid()
        invariant Dropped(old(trunks), trunks, places[..i])
      {
        assert places[i] !in places[..i] && Carries(old(trunks), places[i], id);
        DropOneMore(old(trunks), trunks, places[..i], places[i]);
        trunks := Drop(trunks, places[i]);
        assert places[..i + 1] == places[..i] + [places[i]];
        i := i + 1;
      }
      assert places[..i] == places;
    }

    /** Afterwards the id is at exactly the places of the new line. */
    method UpdateLine(techno: string, id: int, name: string, username: Option<string>, tenant: string)
      requires Valid()
      modifies this`lines
      ensures Valid()
      ensures forall p :: Carries(lines, p, id) <==> p in LinePlaces(techno, name, username)
      ensures At(lines, Place(techno, "name", Text(name))) == Some(Record(id, techno, name, tenant))
      ensures forall p ::
                p !in LinePlaces(techno, name, username) && !Carries(old(lines), p, id) ==>
                  At(lines, p) == At(old(lines), p)
      ensures old(Consistent(lines)) ==> Consistent(lines)
      ensures old(EachIdOnce(lines)) ==> EachIdOnce(lines)
    {
      DeleteLine(id);
      ghost var middle := lines;
      AddLine(techno, id, name, username, tenant);
      ghost var r := Record(id, techno, name, tenant);
      PlacesFit(r, username, NoKey);
      UpdateIsExact(old(lines), middle, lines, LinePlaces(techno, name, username), r);
    }

    method UpdateTrunk(techno: string, id: int, name: string, username: Option<string>, tenant: string)
      requires Valid()
      modifies this`trunks
      ensures Valid()
      ensures forall p :: Carries(trunks, p, id) <==> p in TrunkPlaces(techno, id, name, username)
      ensures At(trunks, Place(techno, "name", Text(name))) == Some(Record(id, techno, name, tenant))
      ensures forall p :: p !in TrunkPlaces(techno, id, name, username) && !Carries(old(trunks), p, id) ==>
                At(trunks, p) == At(old(trunks), p)
      ensures old(Consistent(trunks)) ==> Consistent(trunks)
      ensures old(EachIdOnce(trunks)) ==> EachIdOnce(trunks)
    {
      DeleteTrunk(id);
      ghost var middle := trunks;
      AddTrunk(techno, id, name, username, tenant);
      ghost var r := Record(id, techno, name, tenant);
      PlacesFit(r, username, NoKey);
      UpdateIsExact(old(trunks), middle, trunks, TrunkPlaces(techno, id, name, username), r);
    }

    // ---- Loading ----

    method FirstClientUri(options: seq<(string, string)>) returns (username: Key)
      ensures username == ClientUri(options)
    {
      var i := 0;
      while i < |options|
        invariant 0 <= i <= |options|
        invariant ClientUri(options) == ClientUri(options[i..])
      {
        if options[i].0 == "client_uri" {
          return Text(options[i].1);
        }
        i := i + 1;
      }
      username := NoKey;
    }

    method UpdateLineCache(confd: seq<LineDto>)
      requires Valid()
      modifies this`lines
      ensures Valid() && Loaded(old(lines), lines, LineItems(confd))
    {
      var i := 0;
      while i < |confd|
        invariant 0 <= i <= |confd|
        invariant Valid() && Loaded(old(lines), lines, LineItems(confd[..i]))
      {
        ghost var middle := lines;
        var line := confd[i];
        lines := WithTechno(lines, line.protocol, {"name"});
        lines := Put(lines, Place(line.protocol, "name", Text(line.name)),
            Record(line.id, line.protocol, line.name, line.tenant));
        assert confd[..i + 1][..i] == confd[..i];
        assert Added(middle, lines, LineItem(line).places, LineItem(line).r);
        LoadOneMore(old(lines), middle, lines, LineItems(confd[..i]), LineItem(line));
        i := i + 1;
      }
      assert confd[..i] == confd;
    }

    method PutTrunk(trunk: TrunkDto, techno: string, name: string, username: Key)
      requires Valid()
      modifies this`trunks
      ensures Valid() && trunks.Keys == old(trunks).Keys + {techno}
      ensures var item := TrunkItemOf(trunk, techno, name, username); Added(old(trunks), trunks, item.places, item.r)
    {
      var value := Record(trunk.id, techno, name, trunk.tenant);
      StoreTrunkTwice(techno, value);
      ghost var middle, two := trunks, {Place(techno, "name", Text(name)), Place(techno, "id", Number(trunk.id))};
      StoreTrunk(techno, "username", username, value);
      AddBoth(old(trunks), middle, trunks, two, {Place(techno, "username", username)}, value);
      assert LoadedTrunkPlaces(techno, trunk.id, name, username) == two + {Place(techno, "username", username)};
    }

    /** One trunk of the listing; one without an endpoint is skipped. */
    method CacheTrunk(trunk: TrunkDto)
      requires Valid()
      modifies this`trunks
      ensures Valid()
      ensures var item := TrunkItem(trunk);
              if item.Some? then
                && trunks.Keys == old(trunks).Keys + {item.value.r.technology}
                && Added(old(trunks), trunks, item.value.places, item.value.r)
              else trunks == old(trunks)
    {
      match trunk.endpoint {
        case Sip(name, options) =>
          var username := FirstClientUri(options);
          PutTrunk(trunk, "sip", name, username);
        case Iax(name) => PutTrunk(trunk, "iax", name, Text(name));
        case Custom(interface) => PutTrunk(trunk, "custom", interface, Text(interface));
        case NoEndpoint =>
      }
    }

    method UpdateTrunkCache(confd: seq<TrunkDto>)
      requires Valid()
      modifies this`trunks
      ensures Valid() && trunks.Keys == old(trunks).Keys + Technologies(confd)
          && Loaded(old(trunks), trunks, TrunkItems(confd))
    {
      var i := 0;
      while i < |confd|
        invariant 0 <= i <= |confd|
        invariant Valid() && trunks.Keys == old(trunks).Keys + Technologies(confd[..i])
        invariant Loaded(old(trunks), trunks, TrunkItems(confd[..i]))
      {
        ghost var middle, item := trunks, TrunkItem(confd[i]);
        CacheTrunk(confd[i]);
        assert confd[..i + 1][..i] == confd[..i];
        OneMoreTechnology(confd, i);
        if item.Some? {
          LoadOneMore(old(trunks), middle, trunks, TrunkItems(confd[..i]), item.value);
        }
        i := i + 1;
      }
      assert confd[..i] == confd;
    }

    /** The first reading operation loads the cache, over what events have put there meanwhile. */
    method Initialize(confd: Confd)
      requires Valid()
      modifies this
      ensures Valid() && initialized
      ensures if old(initialized) then lines == old(lines) && trunks == old(trunks)
              else
                && IsLoaded(old(lines), old(trunks), confd)
                && trunks.Keys == old(trunks).Keys + Technologies(confd.trunks)
    {
      if initialized {
        return;
      }
      UpdateTrunkCache(confd.trunks);
      UpdateLineCache(confd.lines);
      initialized := true;
    }

    // ---- Reading ----

    /** `_get_endpoint_by_index`, for a table that is loaded. */
    method EndpointByIndex(table: Table, techno: string, index: string, key: Key) returns (r: Option<Record>)
      requires HasIndices(table, {index})
      ensures r == At(table, Place(ConfdTechno(techno), index, key))
      ensures forall confd :: SameTechnology(techno, confd) ==> r == At(table, Place(confd, index, key))
    {
      var confdTechno := ConfdTechno(techno);
      if confdTechno !in table {
        return None;
      }
      r := Get(table[confdTechno][index], key);
    }

    method GetLine(confd: Confd, techno: string, name: string) returns (r: Option<Record>)
      requires Valid()
      modifies this
      ensures Valid() && initialized
      ensures forall protocol :: SameTechnology(techno, protocol) ==>
                r == At(lines, Place(protocol, "name", Text(name)))
      ensures if old(initialized) then lines == old(lines) && trunks == old(trunks)
          else IsLoaded(old(lines), old(trunks), confd)
      ensures !old(initialized) ==>
                forall protocol, i :: SameTechnology(techno, protocol) && IsLastLine(confd.lines, i, protocol, name) ==>
                  r == Some(Record(confd.lines[i].id, protocol, name, confd.lines[i].tenant))
      ensures !old(initialized) ==>
                forall protocol :: SameTechnology(techno, protocol) && NoSuchLine(confd.lines, protocol, name) ==>
                  r == At(old(lines), Place(protocol, "name", Text(name)))
    {
      Initialize(confd);
      r := EndpointByIndex(lines, techno, "name", Text(name));
      if !old(initialized) {
        forall protocol | SameTechnology(techno, protocol)
          ensures forall i :: IsLastLine(confd.lines, i, protocol, name) ==>
                    r == Some(Record(confd.lines[i].id, protocol, name, confd.lines[i].tenant))
          ensures NoSuchLine(confd.lines, protocol, name) ==> r == At(old(lines), Place(protocol, "name", Text(name))) {
          LoadedLine(old(lines), lines, confd.lines, protocol, name);
        }
      }
    }

    method GetTrunk(confd: Confd, techno: string, name: string) returns (r: Option<Record>)
      requires Valid()
      modifies this
      ensures Valid() && initialized
      ensures forall confdTechno :: SameTechnology(techno, confdTechno) ==>
                r == At(trunks, Place(confdTechno, "name", Text(name)))
      ensures if old(initialized) then lines == old(lines) && trunks == old(trunks)
          else IsLoaded(old(lines), old(trunks), confd)
      ensures !old(initialized) ==> FoundAsListed(confd.trunks, old(trunks), techno, "name", Text(name), r)
    {
      Initialize(confd);
      r := EndpointByIndex(trunks, techno, "name", Text(name));
      if !old(initialized) {
        LoadedIsFound(old(trunks), trunks, confd.trunks, techno, "name", Text(name), r);
      }
    }

    method GetTrunkByUsername(confd: Confd, techno: string, username: string) returns (r: Option<Record>)
      requires Valid()
      modifies this
      ensures Valid() && initialized
      ensures forall confdTechno :: SameTechnology(techno, confdTechno) ==>
                r == At(trunks, Place(confdTechno, "username", Text(username)))
      ensures if old(initialized) then lines == old(lines) && trunks == old(trunks)
          else IsLoaded(old(lines), old(trunks), confd)
      ensures !old(initialized) ==> FoundAsListed(confd.trunks, old(trunks), techno, "username", Text(username), r)
    {
      Initialize(confd);
      r := EndpointByIndex(trunks, techno, "username", Text(username));
      if !old(initialized) {
        LoadedIsFound(old(trunks), trunks, confd.trunks, techno, "username", Text(username), r);
      }
    }

    /** Looks a trunk up in every technology, by its confd name; `order` is the order of the dictionary.  A cache
        that is not loaded is loaded during the first turn, and an empty one is not loaded at all.  The loop
        fails exactly when that load brings a new technology and the first turn finds nothing. */
    method GetTrunkById(confd: Confd, id: int, order: seq<string>)
        returns (r: Option<Record>, failed: bool, ghost turn: nat)
      requires Valid() && IsOrderOf(order, trunks.Keys)
      modifies this
      ensures Valid()
      ensures old(initialized) || order == [] ==> trunks == old(trunks) && initialized == old(initialized)
      ensures !old(initialized) && order != [] ==> initialized && Loaded(old(trunks), trunks, TrunkItems(confd.trunks))
      ensures failed <==> && order != [] && !old(initialized) && !(Technologies(confd.trunks) <= old(trunks).Keys)
                          && At(trunks, IdPlace(order[0], id)).None?
      ensures failed ==> r.None?
      ensures turn <= |order| && forall j :: 0 <= j < turn ==> At(trunks, IdPlace(order[j], id)).None?
      ensures r.Some? ==> turn < |order| && r == At(trunks, IdPlace(order[turn], id))
      ensures r.None? && !failed ==> forall techno :: techno in trunks ==> At(trunks, IdPlace(techno, id)).None?
      ensures r.Some? && Consistent(trunks) ==> r.value.id == id
      ensures r.None? && !failed ==>
                forall techno :: SameTechnology(techno, techno) ==> At(trunks, Place(techno, "id", Number(id))).None?
    {
      if order == [] {
        return None, false, 0;
      }
      r, failed := FindInFirst(confd, id, order[0]);
      if r.Some? || failed {
        return r, failed, 0;
      }
      r, turn := FindInOthers(id, order);
      if r.None? {
        AllLookedAt(trunks, order, id);
      }
    }

    /** The first turn, which loads the cache if need be, and the check of the dictionary that follows a turn. */
    method FindInFirst(confd: Confd, id: int, techno: string) returns (r: Option<Record>, failed: bool)
      requires Valid()
      modifies this
      ensures Valid()
      ensures if old(initialized) then trunks == old(trunks) && initialized
              else initialized && Loaded(old(trunks), trunks, TrunkItems(confd.trunks))
      ensures r == At(trunks, IdPlace(techno, id))
      ensures failed <==> !old(initialized) && !(Technologies(confd.trunks) <= old(trunks).Keys) && r.None?
      ensures r.None? && !failed ==> trunks.Keys == old(trunks).Keys
    {
      var size := |trunks.Keys|;
      Initialize(confd);
      SizeTells(old(trunks).Keys, trunks.Keys);
      r := EndpointByIndex(trunks, techno, "id", Number(id));
      failed := r.None? && size != |trunks.Keys|;
    }

    /** The turns after the first one, which find the cache loaded and the dictionary as it was. */
    method FindInOthers(id: int, order: seq<string>) returns (r: Option<Record>, ghost turn: nat)
      requires Valid() && order != [] && At(trunks, IdPlace(order[0], id)).None?
      ensures turn <= |order| && forall j :: 0 <= j < turn ==> At(trunks, IdPlace(order[j], id)).None?
      ensures if r.Some? then turn < |order| && r == At(trunks, IdPlace(order[turn], id)) else turn == |order|
    {
      var i := 1;
      while i < |order|
        invariant 1 <= i <= |order|
        invariant forall j :: 0 <= j < i ==> At(trunks, IdPlace(order[j], id)).None?
      {
        r := EndpointByIndex(trunks, order[i], "id", Number(id));
        if r.Some? {
          return r, i;
        }
        i := i + 1;
      }
      return None, i;
    }

    /** The records of a tenant in a name index, each entry once; `places` are the entries they come from. */
    method Listed(table: Table, tenant: string) returns (results: seq<Record>, ghost places: seq<Place>)
      requires HasIndices(table, {"name"})
      ensures |places| == |results|
      ensures forall i :: 0 <= i < |results| ==> At(table, places[i]) == Some(results[i])
      ensures forall p ::
                p in places <==> p.index == "name" && At(table, p).Some? && At(table, p).value.tenant == tenant
      ensures forall i, j :: 0 <= i < j < |places| ==> places[i] != places[j]
    {
      results, places := [], [];
      var technos := table.Keys;
      while technos != {}
        invariant technos <= table.Keys && |places| == |results|
        invariant forall i :: 0 <= i < |results| ==> At(table, places[i]) == Some(results[i])
        invariant forall p :: p in places <==>
          p.index == "name" && At(table, p).Some? && At(table, p).value.tenant == tenant && p.techno !in technos
        invariant forall i, j :: 0 <= i < j < |places| ==> places[i] != places[j]
        decreases technos
      {
        var techno :| techno in technos;
        var keys := table[techno]["name"].Keys;
        while keys != {}
          invariant keys <= table[techno]["name"].Keys && |places| == |results|
          invariant forall i :: 0 <= i < |results| ==> At(table, places[i]) == Some(results[i])
          invariant forall p :: p in places <==>
            && p.index == "name" && At(table, p).Some? && At(table, p).value.tenant == tenant
            && (p.techno !in technos || (p.techno == techno && p.key !in keys))
          invariant forall i, j :: 0 <= i < j < |places| ==> places[i] != places[j]
          decreases keys
        {
          var key :| key in keys;
          var record := table[techno]["name"][key];
          if record.tenant == tenant {
            assert Place(techno, "name", key) !in places;
            results := results + [record];
            places := places + [Place(techno, "name", key)];
          }
          keys := keys - {key};
        }
        technos := technos - {techno};
      }
    }

    method ListLines(confd: Confd, tenant: string) returns (results: seq<Record>, ghost places: seq<Place>)
      requires Valid()
      modifies this
      ensures Valid() && initialized && |places| == |results|
      ensures if old(initialized) then lines == old(lines) && trunks == old(trunks)
          else IsLoaded(old(lines), old(trunks), confd)
      ensures forall i :: 0 <= i < |results| ==> At(lines, places[i]) == Some(results[i])
      ensures forall p ::
                p in places <==> p.index == "name" && At(lines, p).Some? && At(lines, p).value.tenant == tenant
      ensures forall i, j :: 0 <= i < j < |places| ==> places[i] != places[j]
    {
      Initialize(confd);
      results, places := Listed(lines, tenant);
    }
  }
}
