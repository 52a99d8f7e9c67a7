/** The real-time emergency-room listing `get_emergency` (app.py:198-266):
    the feed's items are joined by exact `dutyName` to a registry of hospital
    sites read from the CSV, and the ten best are listed, available rooms
    first, nearer ones first within each group. */
module Emergency {
  import opened Wrappers
  import opened PyNum
  import opened Records
  import opened Feed
  import opened Visits
  import opened Ranking

  /** What the registry `coords` holds for one hospital name. */
  datatype Site = Site(lat: real, lng: real, address: Option<string>, phone: Option<string>)

  /** The registry: `coords`, keyed by the name column, which a short CSV row
      leaves None. */
  type Registry = map<Option<string>, Site>

  /** The registry entry one CSV row makes (app.py:234-239), or None when
      building it raises and the row is skipped: a missing column (KeyError),
      an empty cell under a coordinate (TypeError) or a coordinate `float()`
      rejects (ValueError). A usable row maps its name to its coordinates,
      address and phone. */
  function RowSite(r: Record): (e: Option<(Option<string>, Site)>)
    ensures e.Some? <==>
      YColumn in r && XColumn in r && r[YColumn].Some? && r[XColumn].Some?
      && PyFloat(r[YColumn].value).Some? && PyFloat(r[XColumn].value).Some?
      && AddressColumn in r && PhoneColumn in r && NameColumn in r
    ensures e.Some? ==>
      e.value.0 == r[NameColumn]
      && e.value.1 == Site(PyFloat(r[YColumn].value).value, PyFloat(r[XColumn].value).value, r[AddressColumn], r[PhoneColumn])
  {
    var lat := if YColumn in r && r[YColumn].Some? then PyFloat(r[YColumn].value) else None;
    var lng := if XColumn in r && r[XColumn].Some? then PyFloat(r[XColumn].value) else None;
    if lat.None? || lng.None? || AddressColumn !in r || PhoneColumn !in r || NameColumn !in r then None
    else Some((r[NameColumn], Site(lat.value, lng.value, r[AddressColumn], r[PhoneColumn])))
  }

  /** The registry after reading `rows` in order (`coords[name] = ...` for
      each usable row). */
  function RegistryOf(rows: seq<Record>): Registry {
    Tabulate(rows, RowSite)
  }

  /** One more CSV row: a usable row sets (or overwrites) the entry for its
      name and leaves every other entry alone; a skipped row changes nothing. */
  lemma RegistryStep(rows: seq<Record>, r: Record)
    ensures RowSite(r).None? ==> RegistryOf(rows + [r]) == RegistryOf(rows)
    ensures RowSite(r).Some? ==> RegistryOf(rows + [r]) == RegistryOf(rows)[RowSite(r).value.0 := RowSite(r).value.1]
  {
    TabulateSnoc(rows, r, RowSite);
  }

  /** A name is in the registry exactly when some usable row carries it. */
  lemma RegistryKeys(rows: seq<Record>, k: Option<string>)
    ensures k in RegistryOf(rows) <==> exists i :: 0 <= i < |rows| && Sets(RowSite, rows[i], k)
  {
    TabulateKeys(rows, RowSite, k);
  }

  /** The registry `get_emergency` reads; a missing CSV file leaves it empty. */
  function RegistryFrom(csv: Option<seq<Record>>): Registry {
    if csv.Some? then RegistryOf(csv.value) else map[]
  }

  /** app.py:228-243, the loop that fills `coords` from the CSV rows. */
  method BuildRegistry(csv: Option<seq<Record>>) returns (coords: Registry)
    ensures coords == RegistryFrom(csv)
  {
    coords := map[];
    if csv.None? {
      return;
    }
    var rows := csv.value;
    for i := 0 to |rows|
      invariant coords == RegistryOf(rows[..i])
    {
      assert rows[..i + 1] == rows[..i] + [rows[i]];
      TabulateSnoc(rows[..i], rows[i], RowSite);
      var site := ReadSite(rows[i]);
      if site.None? {
        continue;
      }
      coords := coords[site.value.0 := site.value.1];
    }
    assert rows[..|rows|] == rows;
  }

  /** app.py:233-241 as written, for one row: None when the `except` skips it. */
  method ReadSite(r: Record) returns (entry: Option<(Option<string>, Site)>)
    ensures entry == RowSite(r)
  {
    if YColumn !in r || r[YColumn].None? || XColumn !in r || r[XColumn].None? {
      return None;
    }
    var lat := PyFloat(r[YColumn].value);
    var lng := PyFloat(r[XColumn].value);
    if lat.None? || lng.None? || AddressColumn !in r || PhoneColumn !in r || NameColumn !in r {
      return None;
    }
    return Some((r[NameColumn], Site(lat.value, lng.value, r[AddressColumn], r[PhoneColumn])));
  }

  /** The `status` of an entry. */
  datatype Availability = Available | Unavailable {
    function Label(): string {
      match this
      case Available => "가능"
      case Unavailable => "불가"
    }
  }

  /** One entry of the JSON answer. */
  datatype Room = Room(name: Option<string>, address: Option<string>, phone: Option<string>,
                       lat: real, lng: real, distance: real, available: int, status: Availability)

  /** `int(item.get("hvec", 0))`: 0 when the item has no `hvec`; an empty
      element (None) raises TypeError and a non-integer text ValueError. */
  function Hvec(item: Record): (r: Outcome<int>)
    ensures "hvec" !in item ==> r == Ok(0)
    ensures "hvec" in item ==> (r.Ok? <==> item["hvec"].Some? && PyInt(item["hvec"].value).Some?)
    ensures "hvec" in item && r.Ok? ==> r.value == PyInt(item["hvec"].value).value
  {
    if "hvec" !in item then Ok(0)
    else if item["hvec"].None? then Raised
    else
      var n := PyInt(item["hvec"].value);
      if n.None? then Raised else Ok(n.value)
  }

  /** `e` is the entry made of feed item `item`: its name is a registry key,
      the site (coordinates, address) is the registry's, the phone and bed
      count are the item's, the distance is rounded, and the status is
      "가능" exactly for a positive bed count. */
  ghost predicate Made(item: Record, e: Room, registry: Registry, userLat: Option<real>, userLon: Option<real>, dist: Distance) {
    e.name in registry && e.name == Get(item, "dutyName")
    && userLat.Some? && userLon.Some?
    && var site := registry[e.name];
    e.address == site.address && e.lat == site.lat && e.lng == site.lng
    && e.phone == Get(item, "dutyTel3")
    && e.distance == Round2(dist(Coord(userLat.value, userLon.value), Coord(site.lat, site.lng)))
    && Hvec(item) == Ok(e.available)
    && (e.status == Available <==> e.available > 0)
  }

  /** The loop body of app.py:246-263 for one feed item: an item whose
      `dutyName` is not a registry key is dropped; otherwise it becomes an
      entry with the registry's site, the item's `dutyTel3` and bed count.
      Nothing here is caught: an item that is not a dict, a missing user
      location (`calculate_distance(None, ...)`) or an unreadable bed count
      raises out of the handler. */
  function JoinItem(node: Node, registry: Registry, userLat: Option<real>, userLon: Option<real>,
                    dist: Distance): (r: Outcome<Option<Room>>)
    ensures AsRecord(node).Ok? && Get(AsRecord(node).value, "dutyName") !in registry ==> r == Ok(None)
    ensures r.Ok? && r.value.None? ==> AsRecord(node).Ok? && Get(AsRecord(node).value, "dutyName") !in registry
    ensures r.Ok? && r.value.Some? ==>
      AsRecord(node).Ok? && Made(AsRecord(node).value, r.value.value, registry, userLat, userLon, dist)
    ensures r.Raised? <==>
      AsRecord(node).Raised?
      || (Get(AsRecord(node).value, "dutyName") in registry
          && (userLat.None? || userLon.None? || Hvec(AsRecord(node).value).Raised?))
  {
    var item :- AsRecord(node);
    var name := Get(item, "dutyName");
    if name !in registry then Ok(None)
    else
      var c := registry[name];
      if userLat.None? || userLon.None? then Raised
      else
        var d := dist(Coord(userLat.value, userLon.value), Coord(c.lat, c.lng));
        var available :- Hvec(item);
        Ok(Some(Room(name, c.address, Get(item, "dutyTel3"), c.lat, c.lng, Round2(d), available,
                     if available > 0 then Available else Unavailable)))
  }

  function Joiner(registry: Registry, userLat: Option<real>, userLon: Option<real>, dist: Distance): Node -> Outcome<Option<Room>> {
    item => JoinItem(item, registry, userLat, userLon, dist)
  }

  /** `result.sort(key=lambda x: (x["status"] == "불가", x["distance"]))`. */
  function ByAvailability(e: Room): Key {
    Key(e.status == Unavailable, e.distance)
  }

  /** How many entries the answer lists at most (`result[:10]`). */
  const Shown := 10

  /** The answer of get_emergency for the request's location, how the feed
      call ended, the CSV rows (None when the file is missing) and the
      distance function. */
  function EmergencyReply(userLat: Option<real>, userLon: Option<real>, fetch: Fetch,
                          csv: Option<seq<Record>>, dist: Distance): (r: Reply<Room>)
    ensures fetch.Unreachable? || fetch.Unparsable? ==> r == FeedFailure
    ensures fetch.Parsed? && EmergencyItems(fetch.data).Raised? ==> r == ServerError
    ensures r.Listing? ==> |r.entries| <= Shown && Sorted(r.entries, ByAvailability)
  {
    match fetch
    case Unreachable => FeedFailure
    case Unparsable => FeedFailure
    case Parsed(data) =>
      match EmergencyItems(data)
      case Raised => ServerError
      case Ok(items) =>
        match Collect(items, Joiner(RegistryFrom(csv), userLat, userLon, dist))
        case Raised => ServerError
        case Ok(result) =>
          var sorted := Sort(result, ByAvailability);
          assert Sorted(Top(sorted, Shown), ByAvailability);
          Listing(Top(sorted, Shown))
  }

  /** app.py `get_emergency`, with the feed call's outcome and the CSV rows
      passed in. */
  method GetEmergency(userLat: Option<real>, userLon: Option<real>, fetch: Fetch,
                      csv: Option<seq<Record>>, dist: Distance) returns (reply: Reply<Room>)
    ensures reply == EmergencyReply(userLat, userLon, fetch, csv, dist)
  {
    if !fetch.Parsed? {
      return FeedFailure;
    }
    var normalised := EmergencyItems(fetch.data);
    if normalised.Raised? {
      return ServerError;
    }
    var coords := BuildRegistry(csv);
    var joined := JoinRooms(normalised.value, coords, userLat, userLon, dist);
    if joined.Raised? {
      return ServerError;
    }
    var result := Sort(joined.value, ByAvailability);
    return Listing(Top(result, Shown));
  }

  /** app.py:247-263 as written, for one item: `continue` is `Ok(None)`, an
      escaping exception `Raised`. */
  method JoinOne(node: Node, coords: Registry, userLat: Option<real>, userLon: Option<real>, dist: Distance)
    returns (entry: Outcome<Option<Room>>)
    ensures entry == JoinItem(node, coords, userLat, userLon, dist)
  {
    var record := AsRecord(node);
    if record.Raised? {
      return Raised;
    }
    var item := record.value;
    var name := Get(item, "dutyName");
    if name !in coords {
      return Ok(None);
    }
    var c := coords[name];
    if userLat.None? || userLon.None? {
      return Raised;
    }
    var d := dist(Coord(userLat.value, userLon.value), Coord(c.lat, c.lng));
    var available := Hvec(item);
    if available.Raised? {
      return Raised;
    }
    var status := if available.value > 0 then Available else Unavailable;
    return Ok(Some(Room(name, c.address, Get(item, "dutyTel3"), c.lat, c.lng, Round2(d), available.value, status)));
  }

  /** The loop of app.py:245-263 over the normalised items; Raised when an
      exception escapes it. */
  method JoinRooms(items: seq<Node>, coords: Registry, userLat: Option<real>, userLon: Option<real>,
                   dist: Distance) returns (joined: Outcome<seq<Room>>)
    ensures joined == Collect(items, Joiner(coords, userLat, userLon, dist))
  {
    ghost var join := Joiner(coords, userLat, userLon, dist);
    var result: seq<Room> := [];
    for i := 0 to |items|
      invariant Collect(items[..i], join) == Ok(result)
    {
      var entry := JoinOne(items[i], coords, userLat, userLon, dist);
      CollectStep(items, i, join, result, entry);
      if entry.Raised? {
        RaisedAt(items, i, join);
        return Raised;
      }
      if entry.value.Some? {
        result := result + [entry.value.value];
      }
    }
    assert items[..|items|] == items;
    return Ok(result);
  }

  /** The ten best of `joined` in availability order: every available room
      before every unavailable one, ascending distance within each group,
      and nothing that was not joined. */
  lemma RankedRooms(joined: seq<Room>)
    ensures var top := Top(Sort(joined, ByAvailability), Shown);
      |top| <= Shown
      && (forall i, j :: 0 <= i < j < |top| && top[i].status == Unavailable ==> top[j].status == Unavailable)
      && (forall i, j :: 0 <= i < j < |top| && top[i].status == top[j].status ==> top[i].distance <= top[j].distance)
      && (forall e :: e in top ==> e in joined && multiset(joined)[e] > 0)
      && (|joined| <= Shown ==> multiset(top) == multiset(joined))
  {
    var sorted := Sort(joined, ByAvailability);
    var top := Top(sorted, Shown);
    assert Sorted(top, ByAvailability);
    AvailabilityOrder(top);
    forall e | e in top
      ensures e in joined && multiset(joined)[e] > 0
    {
      assert e in sorted;
      assert e in multiset(sorted);
    }
  }

  /** Availability order, spelled out: every available room before every
      unavailable one, ascending distance within each group. */
  lemma AvailabilityOrder(rooms: seq<Room>)
    requires Sorted(rooms, ByAvailability)
    ensures forall i, j :: 0 <= i < j < |rooms| && rooms[i].status == Unavailable ==> rooms[j].status == Unavailable
    ensures forall i, j :: 0 <= i < j < |rooms| && rooms[i].status == rooms[j].status ==> rooms[i].distance <= rooms[j].distance
  {
    forall i, j | 0 <= i < j < |rooms|
      ensures rooms[i].status == Unavailable ==> rooms[j].status == Unavailable
      ensures rooms[i].status == rooms[j].status ==> rooms[i].distance <= rooms[j].distance
    {
      assert KeyLe(ByAvailability(rooms[i]), ByAvailability(rooms[j]));
    }
  }

  /** The listing of a successful join: at most ten entries, every available
      room before every unavailable one, ascending distance within each group,
      each entry made from a feed item whose name the registry knows, and no
      entry left out that ranks strictly before a listed one. With ten joined
      rooms or fewer, every one of them is listed. */
  lemma EmergencyListing(userLat: Option<real>, userLon: Option<real>, data: Node, items: seq<Node>,
                         csv: Option<seq<Record>>, dist: Distance, joined: seq<Room>)
    requires EmergencyItems(data) == Ok(items)
    requires Collect(items, Joiner(RegistryFrom(csv), userLat, userLon, dist)) == Ok(joined)
    ensures var r := EmergencyReply(userLat, userLon, Parsed(data), csv, dist);
      r.Listing? && |r.entries| <= Shown
      && (forall i, j :: 0 <= i < j < |r.entries| && r.entries[i].status == Unavailable ==> r.entries[j].status == Unavailable)
      && (forall i, j :: 0 <= i < j < |r.entries| && r.entries[i].status == r.entries[j].status ==>
            r.entries[i].distance <= r.entries[j].distance)
      && (forall e :: e in r.entries ==> e.name in RegistryFrom(csv) && multiset(joined)[e] > 0)
      && (|joined| <= Shown ==> multiset(r.entries) == multiset(joined))
  {
    EmergencyReplyOfJoin(userLat, userLon, data, items, csv, dist, joined);
    RankedRooms(joined);
    JoinedNamesKnown(items, RegistryFrom(csv), userLat, userLon, dist, joined);
  }

  /** After a successful join the answer lists the ten best joined rooms. */
  lemma EmergencyReplyOfJoin(userLat: Option<real>, userLon: Option<real>, data: Node, items: seq<Node>,
                             csv: Option<seq<Record>>, dist: Distance, joined: seq<Room>)
    requires EmergencyItems(data) == Ok(items)
    requires Collect(items, Joiner(RegistryFrom(csv), userLat, userLon, dist)) == Ok(joined)
    ensures EmergencyReply(userLat, userLon, Parsed(data), csv, dist) == Listing(Top(Sort(joined, ByAvailability), Shown))
  {
  }

  /** When the feed normalises to `items`, get_emergency answers with a
      server error exactly when some item's join raises: an item that is not
      a dict, or a known name with no user location or an unreadable `hvec`. */
  lemma EmergencyServerError(userLat: Option<real>, userLon: Option<real>, data: Node, items: seq<Node>,
                             csv: Option<seq<Record>>, dist: Distance)
    requires EmergencyItems(data) == Ok(items)
    ensures EmergencyReply(userLat, userLon, Parsed(data), csv, dist) == ServerError <==>
      exists i :: 0 <= i < |items| && JoinItem(items[i], RegistryFrom(csv), userLat, userLon, dist).Raised?
  {
    var join := Joiner(RegistryFrom(csv), userLat, userLon, dist);
    CollectRaised(items, join);
    assert forall i :: 0 <= i < |items| ==> join(items[i]) == JoinItem(items[i], RegistryFrom(csv), userLat, userLon, dist);
  }

  /** The converse of JoinedFromRegistry: a feed item that is a dict whose
      `dutyName` is a registry key, with a user location and a readable
      `hvec`, is joined into a room made from it. */
  lemma KnownItemJoined(items: seq<Node>, registry: Registry, userLat: Option<real>, userLon: Option<real>,
                        dist: Distance, joined: seq<Room>, i: int)
    requires Collect(items, Joiner(registry, userLat, userLon, dist)) == Ok(joined)
    requires 0 <= i < |items| && AsRecord(items[i]).Ok?
    requires Get(AsRecord(items[i]).value, "dutyName") in registry
    requires userLat.Some? && userLon.Some? && Hvec(AsRecord(items[i]).value).Ok?
    ensures exists e :: e in joined && Made(AsRecord(items[i]).value, e, registry, userLat, userLon, dist)
  {
    var join := Joiner(registry, userLat, userLon, dist);
    var e := ItemJoins(items[i], registry, userLat, userLon, dist);
    assert join(items[i]) == Ok(Some(e));
    CollectMembers(items, join, e);
  }

  /** When at most ten rooms are joined, the answer lists a room for every
      dict item with a known name, a user location and a readable `hvec`. */
  lemma KnownItemListed(userLat: Option<real>, userLon: Option<real>, data: Node, items: seq<Node>,
                        csv: Option<seq<Record>>, dist: Distance, joined: seq<Room>, i: int)
    requires EmergencyItems(data) == Ok(items)
    requires Collect(items, Joiner(RegistryFrom(csv), userLat, userLon, dist)) == Ok(joined)
    requires |joined| <= Shown
    requires 0 <= i < |items| && AsRecord(items[i]).Ok?
    requires Get(AsRecord(items[i]).value, "dutyName") in RegistryFrom(csv)
    requires userLat.Some? && userLon.Some? && Hvec(AsRecord(items[i]).value).Ok?
    ensures var r := EmergencyReply(userLat, userLon, Parsed(data), csv, dist);
      r.Listing? && exists e :: e in r.entries && Made(AsRecord(items[i]).value, e, RegistryFrom(csv), userLat, userLon, dist)
  {
    var registry := RegistryFrom(csv);
    var e := ItemJoins(items[i], registry, userLat, userLon, dist);
    assert e in joined by {
      var join := Joiner(registry, userLat, userLon, dist);
      assert join(items[i]) == Ok(Some(e));
      CollectMembers(items, join, e);
    }
    JoinedListed(userLat, userLon, data, items, csv, dist, joined, e);
  }

  /** When at most ten rooms are joined, every joined room is listed. */
  lemma JoinedListed(userLat: Option<real>, userLon: Option<real>, data: Node, items: seq<Node>,
                     csv: Option<seq<Record>>, dist: Distance, joined: seq<Room>, e: Room)
    requires EmergencyItems(data) == Ok(items)
    requires Collect(items, Joiner(RegistryFrom(csv), userLat, userLon, dist)) == Ok(joined)
    requires |joined| <= Shown && e in joined
    ensures var r := EmergencyReply(userLat, userLon, Parsed(data), csv, dist);
      r.Listing? && e in r.entries
  {
    EmergencyListing(userLat, userLon, data, items, csv, dist, joined);
    var r := EmergencyReply(userLat, userLon, Parsed(data), csv, dist);
    assert e in multiset(r.entries);
  }

  /** A dict item with a known name, a user location and a readable `hvec`
      joins into a room. */
  lemma ItemJoins(node: Node, registry: Registry, userLat: Option<real>, userLon: Option<real>, dist: Distance)
    returns (e: Room)
    requires AsRecord(node).Ok? && Get(AsRecord(node).value, "dutyName") in registry
    requires userLat.Some? && userLon.Some? && Hvec(AsRecord(node).value).Ok?
    ensures JoinItem(node, registry, userLat, userLon, dist) == Ok(Some(e))
    ensures Made(AsRecord(node).value, e, registry, userLat, userLon, dist)
  {
    var r := JoinItem(node, registry, userLat, userLon, dist);
    assert !r.Raised?;
    assert r.value.Some?;
    e := r.value.value;
  }

  /** Every joined room's name is a registry key. */
  lemma JoinedNamesKnown(items: seq<Node>, registry: Registry, userLat: Option<real>, userLon: Option<real>,
                         dist: Distance, joined: seq<Room>)
    requires Collect(items, Joiner(registry, userLat, userLon, dist)) == Ok(joined)
    ensures forall e :: e in joined ==> e.name in registry
  {
    forall e | e in joined
      ensures e.name in registry
    {
      JoinedFromRegistry(items, registry, userLat, userLon, dist, joined, e);
    }
  }

  /** Every joined room was made by one feed item from the registry's site
      for its name. */
  lemma JoinedFromRegistry(items: seq<Node>, registry: Registry, userLat: Option<real>, userLon: Option<real>,
                           dist: Distance, joined: seq<Room>, e: Room)
    requires Collect(items, Joiner(registry, userLat, userLon, dist)) == Ok(joined)
    requires e in joined
    ensures exists i :: 0 <= i < |items| && JoinItem(items[i], registry, userLat, userLon, dist) == Ok(Some(e))
    ensures e.name in registry
  {
    var join := Joiner(registry, userLat, userLon, dist);
    CollectMembers(items, join, e);
    var i :| 0 <= i < |items| && join(items[i]) == Ok(Some(e));
    assert JoinItem(items[i], registry, userLat, userLon, dist) == Ok(Some(e));
    JoinedRoomKnown(items[i], registry, userLat, userLon, dist, e);
  }

  /** A room an item joins to carries a registry key as its name. */
  lemma JoinedRoomKnown(node: Node, registry: Registry, userLat: Option<real>, userLon: Option<real>,
                        dist: Distance, e: Room)
    requires JoinItem(node, registry, userLat, userLon, dist) == Ok(Some(e))
    ensures e.name in registry
  {
    var r := JoinItem(node, registry, userLat, userLon, dist);
    assert r.Ok? && r.value.Some? && r.value.value == e;
  }

  /** A joined room that the cut leaves out ranks no better than any listed one. */
  lemma EmergencyCutKeepsBest(userLat: Option<real>, userLon: Option<real>, data: Node, items: seq<Node>,
                              csv: Option<seq<Record>>, dist: Distance, joined: seq<Room>, kept: Room, dropped: Room)
    requires EmergencyItems(data) == Ok(items)
    requires Collect(items, Joiner(RegistryFrom(csv), userLat, userLon, dist)) == Ok(joined)
    requires kept in EmergencyReply(userLat, userLon, Parsed(data), csv, dist).entries
    requires dropped in joined && dropped !in EmergencyReply(userLat, userLon, Parsed(data), csv, dist).entries
    ensures dropped.status == Unavailable || kept.status == Available
    ensures kept.status == dropped.status ==> kept.distance <= dropped.distance
  {
    var sorted := Sort(joined, ByAvailability);
    assert dropped in multiset(joined);
    assert dropped in sorted;
    TopKeepsBest(sorted, ByAvailability, Shown, kept, dropped);
  }

  /** Within each availability group the listing keeps the feed's order of
      rooms at equal distance, as Python's stable sort does. */
  lemma EmergencyStable(joined: seq<Room>, k: Key)
    ensures WithKey(Sort(joined, ByAvailability), ByAvailability, k) == WithKey(joined, ByAvailability, k)
  {
    SortStable(joined, ByAvailability, k);
  }
}
