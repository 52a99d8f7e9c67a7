/** The real-time pharmacy listing `get_pharmacy` (app.py:272-364): the
    feed's pharmacies within the radius, each with its opening status, its
    raw times and its weekly summary, open ones first, nearer ones first
    within each group. */
module Pharmacy {
  import opened Wrappers
  import opened PyNum
  import opened Records
  import opened Feed
  import opened Visits
  import opened Ranking
  import opened Hours

  /** One entry of the JSON answer. */
  datatype Pharmacy = Pharmacy(name: Option<string>, address: Option<string>, phone: Option<string>,
                               lat: real, lng: real, distance: real, status: OpenStatus,
                               hoursRaw: map<string, Option<string>>, summary: string)

  /** The item's position (app.py:325-335): `wgs84Lat`/`wgs84Lon` when both
      read as numbers, otherwise `latitude`/`longitude` when both do; None
      when neither pair does, and the item is skipped. The two pairs are
      never mixed. */
  function PharmacyCoord(item: Record): (c: Option<Coord>)
    ensures var lat, lon := SafeFloat(Get(item, "wgs84Lat")), SafeFloat(Get(item, "wgs84Lon"));
      lat.Some? && lon.Some? ==> c == Some(Coord(lat.value, lon.value))
    ensures var lat, lon := SafeFloat(Get(item, "wgs84Lat")), SafeFloat(Get(item, "wgs84Lon"));
      var lat', lon' := SafeFloat(Get(item, "latitude")), SafeFloat(Get(item, "longitude"));
      !(lat.Some? && lon.Some?) ==>
        (c.Some? <==> lat'.Some? && lon'.Some?) && (c.Some? ==> c == Some(Coord(lat'.value, lon'.value)))
  {
    var lat := SafeFloat(Get(item, "wgs84Lat"));
    var lon := SafeFloat(Get(item, "wgs84Lon"));
    var (lat, lon) := if lat.None? || lon.None? then (SafeFloat(Get(item, "latitude")), SafeFloat(Get(item, "longitude")))
                      else (lat, lon);
    if lat.None? || lon.None? then None else Some(Coord(lat.value, lon.value))
  }

  /** app.py:325-335 as written: read the first pair, and overwrite both
      with the second when either is missing. */
  method ReadCoord(item: Record) returns (c: Option<Coord>)
    ensures c == PharmacyCoord(item)
  {
    var lat := SafeFloat(Get(item, "wgs84Lat"));
    var lon := SafeFloat(Get(item, "wgs84Lon"));
    if lat.None? || lon.None? {
      lat := SafeFloat(Get(item, "latitude"));
      lon := SafeFloat(Get(item, "longitude"));
    }
    if lat.None? || lon.None? {
      return None;
    }
    return Some(Coord(lat.value, lon.value));
  }

  /** The key `f"time{d}s"` or `f"time{d}c"` of `hours_raw`. */
  function RawKey(d: nat, which: char): string
    requires 1 <= d <= 7
  {
    DayKey("time", d, which)
  }

  /** `hours_data` after the loop has written days 1..n. */
  function HoursUpTo(item: Record, n: nat): map<string, Option<string>>
    requires n <= 7
  {
    if n == 0 then map[]
    else HoursUpTo(item, n - 1)[RawKey(n, 's') := Get(item, TimeKey(n, 's'))][RawKey(n, 'c') := Get(item, TimeKey(n, 'c'))]
  }

  /** `hours_raw` holds exactly the fourteen keys `time1s` .. `time7c`, each
      with the item's `dutyTime` value for that day and end (None when the
      item lacks it). */
  lemma {:induction false} HoursUpToLookup(item: Record, n: nat, d: nat, which: char)
    requires n <= 7 && 1 <= d <= 7 && (which == 's' || which == 'c')
    ensures RawKey(d, which) in HoursUpTo(item, n) <==> d <= n
    ensures d <= n ==> HoursUpTo(item, n)[RawKey(d, which)] == Get(item, TimeKey(d, which))
  {
    if n > 0 {
      HoursUpToLookup(item, n - 1, d, which);
      if RawKey(d, which) == RawKey(n, 's') {
        DayKeyInjective("time", d, which, n, 's');
      }
      if RawKey(d, which) == RawKey(n, 'c') {
        DayKeyInjective("time", d, which, n, 'c');
      }
    }
  }

  /** Every key of `hours_raw` is one of the fourteen. */
  lemma {:induction false} HoursUpToKeys(item: Record, n: nat, k: string)
    requires n <= 7 && k in HoursUpTo(item, n)
    ensures exists d: nat, which: char :: 1 <= d <= n && (which == 's' || which == 'c') && k == RawKey(d, which)
  {
    if k != RawKey(n, 's') && k != RawKey(n, 'c') {
      HoursUpToKeys(item, n - 1, k);
    }
  }

  /** app.py:342-345, the loop that copies the times into `hours_data`. */
  method CollectHours(item: Record) returns (hours: map<string, Option<string>>)
    ensures hours == HoursUpTo(item, 7)
  {
    hours := map[];
    for i := 1 to 8
      invariant hours == HoursUpTo(item, i - 1)
    {
      hours := hours[RawKey(i, 's') := Get(item, TimeKey(i, 's'))];
      hours := hours[RawKey(i, 'c') := Get(item, TimeKey(i, 'c'))];
    }
  }

  /** The loop body of app.py:322-357 for one feed item. An item that is not
      a dict raises (`item.get`), and the handler's catch-all answers with a
      server error. */
  function VisitItem(node: Node, user: Coord, radius: real, now: Clock, dist: Distance): (r: Outcome<Option<Pharmacy>>)
    ensures r.Raised? <==> AsRecord(node).Raised?
    ensures r == Ok(None) ==>
      PharmacyCoord(AsRecord(node).value).None? || dist(user, PharmacyCoord(AsRecord(node).value).value) > radius
    ensures r.Ok? && r.value.Some? ==> Shows(AsRecord(node).value, r.value.value, user, radius, now, dist)
  {
    var item :- AsRecord(node);
    var c := PharmacyCoord(item);
    if c.None? then Ok(None)
    else
      var d := dist(user, c.value);
      if d <= radius then
        Ok(Some(Pharmacy(Get(item, "dutyName"), Get(item, "dutyAddr"), Get(item, "dutyTel1"),
                         c.value.lat, c.value.lon, Round2(d), PharmacyStatus(item, now),
                         HoursUpTo(item, 7), Summary(item))))
      else Ok(None)
  }

  /** `p` is the entry the handler makes of feed item `item`: at the item's
      position, within the radius, with today's status, the raw times and
      the weekly summary of the item. */
  ghost predicate Shows(item: Record, p: Pharmacy, user: Coord, radius: real, now: Clock, dist: Distance) {
    PharmacyCoord(item) == Some(Coord(p.lat, p.lng))
    && dist(user, Coord(p.lat, p.lng)) <= radius && p.distance == Round2(dist(user, Coord(p.lat, p.lng)))
    && p.name == Get(item, "dutyName") && p.address == Get(item, "dutyAddr") && p.phone == Get(item, "dutyTel1")
    && p.status == PharmacyStatus(item, now) && p.hoursRaw == HoursUpTo(item, 7) && p.summary == Summary(item)
  }

  function Visitor(user: Coord, radius: real, now: Clock, dist: Distance): Node -> Outcome<Option<Pharmacy>> {
    node => VisitItem(node, user, radius, now, dist)
  }

  /** `result.sort(key=lambda x: (x["status"] != "영업중", x["distance"]))`. */
  function ByOpen(p: Pharmacy): Key {
    Key(p.status != Open, p.distance)
  }

  /** The answer of get_pharmacy for the request's location and radius, how
      the feed call ended, the clock and the distance function. A missing
      location is answered before anything else; a failed call is a server
      error and an unparsable body a 502; a provider error envelope is passed
      on. */
  function PharmacyReply(userLat: Option<real>, userLon: Option<real>, radius: real, fetch: Fetch,
                         now: Clock, dist: Distance): (r: Reply<Pharmacy>)
    ensures userLat.None? || userLon.None? ==> r == MissingLocation
    ensures userLat.Some? && userLon.Some? && fetch.Unreachable? ==> r == ServerError
    ensures userLat.Some? && userLon.Some? && fetch.Unparsable? ==> r == FeedUnparsable
    ensures userLat.Some? && userLon.Some? && fetch.Parsed? && In("OpenAPI_ServiceResponse", fetch.data) == Ok(true) ==>
      r == (if ProviderMessage(fetch.data).Ok? then ProviderError(ProviderMessage(fetch.data).value) else ServerError)
    ensures userLat.Some? && userLon.Some? && fetch.Parsed? && In("OpenAPI_ServiceResponse", fetch.data).Raised? ==>
      r == ServerError
    ensures (userLat.Some? && userLon.Some? && fetch.Parsed? && In("OpenAPI_ServiceResponse", fetch.data) == Ok(false)
             && PharmacyItems(fetch.data).Raised?) ==> r == ServerError
    ensures r.Listing? ==> Sorted(r.entries, ByOpen)
  {
    if userLat.None? || userLon.None? then MissingLocation
    else
      match fetch
      case Unreachable => ServerError
      case Unparsable => FeedUnparsable
      case Parsed(data) =>
        match In("OpenAPI_ServiceResponse", data)
        case Raised => ServerError
        case Ok(envelope) =>
          if envelope then
            match ProviderMessage(data)
            case Raised => ServerError
            case Ok(message) => ProviderError(message)
          else
            match PharmacyItems(data)
            case Raised => ServerError
            case Ok(items) =>
              match Collect(items, Visitor(Coord(userLat.value, userLon.value), radius, now, dist))
              case Raised => ServerError
              case Ok(result) => Listing(Sort(result, ByOpen))
  }

  /** app.py:325-357 as written, for one item: `continue` is `Ok(None)`, an
      escaping exception `Raised`. */
  method ReadItem(node: Node, user: Coord, radius: real, now: Clock, dist: Distance)
    returns (entry: Outcome<Option<Pharmacy>>)
    ensures entry == VisitItem(node, user, radius, now, dist)
  {
    var record := AsRecord(node);
    if record.Raised? {
      return Raised;
    }
    var item := record.value;
    var c := ReadCoord(item);
    if c.None? {
      return Ok(None);
    }
    var d := dist(user, c.value);
    if d > radius {
      return Ok(None);
    }
    var hoursData := CollectHours(item);
    var summary := FormatAllPharmacyHours(item);
    return Ok(Some(Pharmacy(Get(item, "dutyName"), Get(item, "dutyAddr"), Get(item, "dutyTel1"),
                            c.value.lat, c.value.lon, Round2(d), PharmacyStatus(item, now), hoursData, summary)));
  }

  /** The loop of app.py:321-357 over the normalised items; Raised when an
      exception escapes it. */
  method ListPharmacies(items: seq<Node>, user: Coord, radius: real, now: Clock, dist: Distance)
    returns (listed: Outcome<seq<Pharmacy>>)
    ensures listed == Collect(items, Visitor(user, radius, now, dist))
  {
    ghost var visit := Visitor(user, radius, now, dist);
    var result: seq<Pharmacy> := [];
    for i := 0 to |items|
      invariant Collect(items[..i], visit) == Ok(result)
    {
      var entry := ReadItem(items[i], user, radius, now, dist);
      CollectStep(items, i, visit, result, entry);
      if entry.Raised? {
        RaisedAt(items, i, visit);
        return Raised;
      }
      if entry.value.Some? {
        result := result + [entry.value.value];
      }
    }
    assert items[..|items|] == items;
    return Ok(result);
  }

  /** app.py `get_pharmacy`, with the feed call's outcome and the clock passed in. */
  method GetPharmacy(userLat: Option<real>, userLon: Option<real>, radius: real, fetch: Fetch,
                     now: Clock, dist: Distance) returns (reply: Reply<Pharmacy>)
    ensures reply == PharmacyReply(userLat, userLon, radius, fetch, now, dist)
  {
    if userLat.None? || userLon.None? {
      return MissingLocation;
    }
    if fetch.Unreachable? {
      return ServerError;
    }
    if fetch.Unparsable? {
      return FeedUnparsable;
    }
    var data := fetch.data;
    var envelope := In("OpenAPI_ServiceResponse", data);
    if envelope.Raised? {
      return ServerError;
    }
    if envelope.value {
      var message := ProviderMessage(data);
      if message.Raised? {
        return ServerError;
      }
      return ProviderError(message.value);
    }
    var normalised := PharmacyItems(data);
    if normalised.Raised? {
      return ServerError;
    }
    var listed := ListPharmacies(normalised.value, Coord(userLat.value, userLon.value), radius, now, dist);
    if listed.Raised? {
      return ServerError;
    }
    var result := Sort(listed.value, ByOpen);
    return Listing(result);
  }

  /** The listing of a successful visit: open pharmacies before all others,
      ascending distance within each group, and a pharmacy is listed exactly
      when one of the items yields it, with that item's position within the
      radius, its status for the clock and its summary. */
  lemma PharmacyListing(userLat: Option<real>, userLon: Option<real>, radius: real, data: Node,
                        now: Clock, dist: Distance, items: seq<Node>, p: Pharmacy)
    requires userLat.Some? && userLon.Some?
    requires In("OpenAPI_ServiceResponse", data) == Ok(false) && PharmacyItems(data) == Ok(items)
    requires PharmacyReply(userLat, userLon, radius, Parsed(data), now, dist).Listing?
    ensures var es := PharmacyReply(userLat, userLon, radius, Parsed(data), now, dist).entries;
      forall i, j :: 0 <= i < j < |es| && es[i].status != Open ==> es[j].status != Open
    ensures var es := PharmacyReply(userLat, userLon, radius, Parsed(data), now, dist).entries;
      forall i, j :: 0 <= i < j < |es| && (es[i].status == Open <==> es[j].status == Open) ==>
        es[i].distance <= es[j].distance
    ensures multiset(PharmacyReply(userLat, userLon, radius, Parsed(data), now, dist).entries)
      == multiset(Collect(items, Visitor(Coord(userLat.value, userLon.value), radius, now, dist)).value)
    ensures var user := Coord(userLat.value, userLon.value);
      p in PharmacyReply(userLat, userLon, radius, Parsed(data), now, dist).entries <==>
        exists i :: 0 <= i < |items| && VisitItem(items[i], user, radius, now, dist) == Ok(Some(p))
    ensures var user := Coord(userLat.value, userLon.value);
      p in PharmacyReply(userLat, userLon, radius, Parsed(data), now, dist).entries ==>
        exists i :: 0 <= i < |items| && AsRecord(items[i]).Ok? && Shows(AsRecord(items[i]).value, p, user, radius, now, dist)
  {
    var user := Coord(userLat.value, userLon.value);
    var visit := Visitor(user, radius, now, dist);
    var result := Collect(items, visit).value;
    var es := PharmacyReply(userLat, userLon, radius, Parsed(data), now, dist).entries;
    assert es == Sort(result, ByOpen);
    assert p in es <==> p in result by {
      assert p in es <==> p in multiset(es);
      assert p in result <==> p in multiset(result);
    }
    CollectMembers(items, visit, p);
    if p in es {
      var i :| 0 <= i < |items| && VisitItem(items[i], user, radius, now, dist) == Ok(Some(p));
      assert AsRecord(items[i]).Ok? && Shows(AsRecord(items[i]).value, p, user, radius, now, dist);
    }
  }

  /** Once the feed is not a provider envelope and its items normalise, the
      search fails with a server error exactly when some item is not a dict. */
  lemma PharmacyServerError(userLat: Option<real>, userLon: Option<real>, radius: real, data: Node,
                            now: Clock, dist: Distance, items: seq<Node>)
    requires userLat.Some? && userLon.Some?
    requires In("OpenAPI_ServiceResponse", data) == Ok(false) && PharmacyItems(data) == Ok(items)
    ensures PharmacyReply(userLat, userLon, radius, Parsed(data), now, dist) == ServerError <==>
      exists i :: 0 <= i < |items| && AsRecord(items[i]).Raised?
  {
    var visit := Visitor(Coord(userLat.value, userLon.value), radius, now, dist);
    CollectRaised(items, visit);
    assert forall i :: 0 <= i < |items| ==> (visit(items[i]).Raised? <==> AsRecord(items[i]).Raised?);
  }
}
