/** The CSV-based hospital search `get_hospitals` (app.py:149-192): keep the
    registry rows that have coordinates, whose name contains the keyword and
    that lie within the radius, and list them by ascending distance. */
module Hospitals {
  import opened Wrappers
  import opened PyText
  import opened PyNum
  import opened Records
  import opened Visits
  import opened Ranking

  /** One entry of the JSON answer. */
  datatype Hospital = Hospital(name: Option<string>, address: Option<string>, phone: Option<string>,
                               lat: real, lng: real, distance: real)

  /** `row.get("좌표(Y)")` and `row.get("좌표(X)")` are both non-empty. */
  predicate HasCoords(row: Record) {
    Truthy(Get(row, YColumn)) && Truthy(Get(row, XColumn))
  }

  /** `row` passes the keyword test: no keyword, or a name that contains it. */
  predicate NameMatches(row: Record, keyword: string) {
    keyword == "" || (Get(row, NameColumn).Some? && Contains(Get(row, NameColumn).value, keyword))
  }

  /** `h` is the entry the handler makes of `row`: the row's coordinates,
      its true distance within the radius and rounded in `h`, its name
      matching the keyword, and its address and phone columns. */
  ghost predicate Listed(row: Record, h: Hospital, keyword: string, radius: real, user: Coord, dist: Distance) {
    HasCoords(row) && Placed(row, h, radius, user, dist)
    && h.name == Get(row, NameColumn) && NameMatches(row, keyword)
  }

  /** `h` has the row's coordinates, address and phone, and its true distance
      is within the radius and rounded in `h`. */
  ghost predicate Placed(row: Record, h: Hospital, radius: real, user: Coord, dist: Distance)
    requires HasCoords(row)
  {
    PyFloat(Get(row, YColumn).value) == Some(h.lat) && PyFloat(Get(row, XColumn).value) == Some(h.lng)
    && dist(user, Coord(h.lat, h.lng)) <= radius && h.distance == Round2(dist(user, Coord(h.lat, h.lng)))
    && h.address == Get(row, AddressColumn) && h.phone == Get(row, PhoneColumn)
  }

  /** The row's coordinates parse and lie within the radius. */
  ghost predicate Near(row: Record, radius: real, user: Coord, dist: Distance)
    requires HasCoords(row)
  {
    var lat, lon := PyFloat(Get(row, YColumn).value), PyFloat(Get(row, XColumn).value);
    lat.Some? && lon.Some? && dist(user, Coord(lat.value, lon.value)) <= radius
  }

  /** The loop body of get_hospitals for one row (app.py:165-187). Rows
      without coordinates, with a non-matching name, with coordinates
      `float()` rejects (the ValueError the loop catches) or out of range are
      skipped; a missing name, address or phone column raises KeyError and a
      None name with a keyword raises TypeError, and neither is caught. */
  function VisitRow(row: Record, keyword: string, radius: real, user: Coord, dist: Distance): (r: Outcome<Option<Hospital>>)
    ensures !HasCoords(row) ==> r == Ok(None)
    ensures r.Ok? && r.value.Some? ==> Listed(row, r.value.value, keyword, radius, user, dist)
    ensures r.Ok? && r.value.None? ==>
      !HasCoords(row) || (NameColumn in row && !NameMatches(row, keyword)) || !Near(row, radius, user, dist)
    ensures r.Raised? <==>
      (HasCoords(row) &&
       (NameColumn !in row
        || (keyword != "" && row[NameColumn].None?)
        || (NameMatches(row, keyword) && Near(row, radius, user, dist)
            && (AddressColumn !in row || PhoneColumn !in row))))
  {
    if !Truthy(Get(row, YColumn)) || !Truthy(Get(row, XColumn)) then Ok(None)
    else
      var name :- Index(row, NameColumn);
      if keyword != "" && name.None? then Raised
      else if keyword != "" && !Contains(name.value, keyword) then Ok(None)
      else NearbyEntry(row, name, radius, user, dist)
  }

  /** The rest of the loop body (app.py:172-185) for a row with coordinates
      whose name has passed the keyword test. */
  function NearbyEntry(row: Record, name: Option<string>, radius: real, user: Coord, dist: Distance)
    : (r: Outcome<Option<Hospital>>)
    requires HasCoords(row)
    ensures r == Ok(None) <==> !Near(row, radius, user, dist)
    ensures r.Raised? <==> Near(row, radius, user, dist) && (AddressColumn !in row || PhoneColumn !in row)
    ensures r.Ok? && r.value.Some? ==> r.value.value.name == name && Placed(row, r.value.value, radius, user, dist)
  {
    var lat, lon := PyFloat(Get(row, YColumn).value), PyFloat(Get(row, XColumn).value);
    if lat.None? || lon.None? then Ok(None)
    else
      var d := dist(user, Coord(lat.value, lon.value));
      if d <= radius then
        var address :- Index(row, AddressColumn);
        var phone :- Index(row, PhoneColumn);
        Ok(Some(Hospital(name, address, phone, lat.value, lon.value, Round2(d))))
      else Ok(None)
  }

  function Visitor(keyword: string, radius: real, user: Coord, dist: Distance): Record -> Outcome<Option<Hospital>> {
    row => VisitRow(row, keyword, radius, user, dist)
  }

  /** `result.sort(key=lambda x: x["distance"])`. */
  function ByDistance(h: Hospital): Key {
    Key(false, h.distance)
  }

  /** The answer of get_hospitals for the request parameters, the CSV rows
      (None when the file does not exist) and the distance function. */
  function HospitalsReply(userLat: Option<real>, userLon: Option<real>, keyword: string, radius: real,
                          csv: Option<seq<Record>>, dist: Distance): (r: Reply<Hospital>)
    ensures userLat.None? || userLon.None? ==> r == MissingLocation
    ensures userLat.Some? && userLon.Some? && csv.None? ==> r == RegistryMissing
    ensures r.Listing? ==> Sorted(r.entries, ByDistance)
  {
    if userLat.None? || userLon.None? then MissingLocation
    else if csv.None? then RegistryMissing
    else
      match Collect(csv.value, Visitor(keyword, radius, Coord(userLat.value, userLon.value), dist))
      case Raised => ServerError
      case Ok(result) => Listing(Sort(result, ByDistance))
  }

  /** app.py:166-185 as written, for one row: `continue` is `Ok(None)`, an
      escaping exception `Raised`. */
  method ReadRow(row: Record, keyword: string, radius: real, user: Coord, dist: Distance)
    returns (entry: Outcome<Option<Hospital>>)
    ensures entry == VisitRow(row, keyword, radius, user, dist)
  {
    if !Truthy(Get(row, YColumn)) || !Truthy(Get(row, XColumn)) {
      return Ok(None);
    }
    if NameColumn !in row {
      return Raised;
    }
    var name := row[NameColumn];
    if keyword != "" && name.None? {
      return Raised;
    }
    if keyword != "" && !Contains(name.value, keyword) {
      return Ok(None);
    }
    entry := ReadNearby(row, name, radius, user, dist);
  }

  /** app.py:172-185 as written, for a row that has passed the keyword test. */
  method ReadNearby(row: Record, name: Option<string>, radius: real, user: Coord, dist: Distance)
    returns (entry: Outcome<Option<Hospital>>)
    requires HasCoords(row)
    ensures entry == NearbyEntry(row, name, radius, user, dist)
  {
    var hLat := PyFloat(Get(row, YColumn).value);
    var hLon := PyFloat(Get(row, XColumn).value);
    if hLat.None? || hLon.None? {
      return Ok(None);
    }
    var d := dist(user, Coord(hLat.value, hLon.value));
    if d > radius {
      return Ok(None);
    }
    if AddressColumn !in row || PhoneColumn !in row {
      return Raised;
    }
    return Ok(Some(Hospital(name, row[AddressColumn], row[PhoneColumn], hLat.value, hLon.value, Round2(d))));
  }

  /** app.py `get_hospitals`, with the CSV rows passed in. */
  method GetHospitals(userLat: Option<real>, userLon: Option<real>, keyword: string, radius: real,
                      csv: Option<seq<Record>>, dist: Distance) returns (reply: Reply<Hospital>)
    ensures reply == HospitalsReply(userLat, userLon, keyword, radius, csv, dist)
  {
    if userLat.None? || userLon.None? {
      return MissingLocation;
    }
    if csv.None? {
      return RegistryMissing;
    }
    var user := Coord(userLat.value, userLon.value);
    var rows := csv.value;
    ghost var visit := Visitor(keyword, radius, user, dist);
    var result: seq<Hospital> := [];
    for i := 0 to |rows|
      invariant Collect(rows[..i], visit) == Ok(result)
    {
      var entry := ReadRow(rows[i], keyword, radius, user, dist);
      CollectStep(rows, i, visit, result, entry);
      if entry.Raised? {
        RaisedAt(rows, i, visit);
        return ServerError;
      }
      if entry.value.Some? {
        result := result + [entry.value.value];
      }
    }
    assert rows[..|rows|] == rows;
    result := Sort(result, ByDistance);
    return Listing(result);
  }

  /** Every listed hospital comes from a row of the registry it was made of,
      by one visit; it is within the radius, matches the keyword, and the
      list ascends by rounded distance. Conversely every row that yields an
      entry is listed. */
  lemma HospitalsListed(userLat: Option<real>, userLon: Option<real>, keyword: string, radius: real,
                        csv: Option<seq<Record>>, dist: Distance, h: Hospital)
    requires HospitalsReply(userLat, userLon, keyword, radius, csv, dist).Listing?
    ensures userLat.Some? && userLon.Some? && csv.Some?
    ensures multiset(HospitalsReply(userLat, userLon, keyword, radius, csv, dist).entries)
      == multiset(Collect(csv.value, Visitor(keyword, radius, Coord(userLat.value, userLon.value), dist)).value)
    ensures var user := Coord(userLat.value, userLon.value);
      h in HospitalsReply(userLat, userLon, keyword, radius, csv, dist).entries <==>
        exists i :: 0 <= i < |csv.value| && VisitRow(csv.value[i], keyword, radius, user, dist) == Ok(Some(h))
    ensures var user := Coord(userLat.value, userLon.value);
      h in HospitalsReply(userLat, userLon, keyword, radius, csv, dist).entries ==>
        dist(user, Coord(h.lat, h.lng)) <= radius && h.distance == Round2(dist(user, Coord(h.lat, h.lng)))
        && (keyword != "" ==> h.name.Some? && Contains(h.name.value, keyword))
  {
    var user := Coord(userLat.value, userLon.value);
    var visit := Visitor(keyword, radius, user, dist);
    var result := Collect(csv.value, visit).value;
    var entries := HospitalsReply(userLat, userLon, keyword, radius, csv, dist).entries;
    assert multiset(entries) == multiset(result);
    assert h in entries <==> h in result by {
      assert h in entries <==> h in multiset(entries);
      assert h in result <==> h in multiset(result);
    }
    CollectMembers(csv.value, visit, h);
    if h in entries {
      var i :| 0 <= i < |csv.value| && VisitRow(csv.value[i], keyword, radius, user, dist) == Ok(Some(h));
      assert Listed(csv.value[i], h, keyword, radius, user, dist);
    }
  }

  /** The search fails with a server error exactly when some row raises. */
  lemma HospitalsServerError(userLat: Option<real>, userLon: Option<real>, keyword: string, radius: real,
                             csv: Option<seq<Record>>, dist: Distance)
    requires userLat.Some? && userLon.Some? && csv.Some?
    ensures HospitalsReply(userLat, userLon, keyword, radius, csv, dist) == ServerError <==>
      exists i :: 0 <= i < |csv.value|
        && VisitRow(csv.value[i], keyword, radius, Coord(userLat.value, userLon.value), dist).Raised?
  {
    var visit := Visitor(keyword, radius, Coord(userLat.value, userLon.value), dist);
    CollectRaised(csv.value, visit);
  }
}
