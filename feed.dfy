/** The response-shape normalisation of the two remote feeds (app.py:217-226
    and app.py:303-319): the path `response/body/items/item` may be missing,
    empty, a single item or a list of items, and comes out as one sequence. */
module Feed {
  import opened Wrappers
  import opened PyText
  import opened Records

  /** Python's `key in n`: key membership for a dict, the substring test for a
      str, element membership for a list; `key in None` raises TypeError. */
  function In(key: string, n: Node): Outcome<bool> {
    match n
    case Obj(m) => Ok(key in m)
    case Leaf(Some(s)) => Ok(Contains(s, key))
    case Leaf(None) => Raised
    case Arr(xs) => Ok(Leaf(Some(key)) in xs)
  }

  /** Python's `n[key]`: a dict lookup that raises KeyError for a missing key;
      subscripting a str, a list or None with a str raises TypeError. */
  function At(n: Node, key: string): Outcome<Node> {
    if n.Obj? && key in n.fields then Ok(n.fields[key]) else Raised
  }

  /** Python truthiness of a parsed node. */
  predicate IsTruthy(n: Node) {
    match n
    case Leaf(t) => Truthy(t)
    case Obj(m) => |m| > 0
    case Arr(xs) => |xs| > 0
  }

  /** `if not isinstance(items, list): items = [items]`. */
  function AsList(n: Node): (r: seq<Node>)
    ensures n.Arr? ==> r == n.elems
    ensures !n.Arr? ==> r == [n]
  {
    if n.Arr? then n.elems else [n]
  }

  /** A feed item seen as a record: `item.get(...)` needs a dict, so anything
      else raises. Only items whose fields are all text are records here. */
  function AsRecord(n: Node): (r: Outcome<Record>)
    ensures r.Ok? <==> n.Obj? && forall k :: k in n.fields ==> n.fields[k].Leaf?
    ensures r.Ok? ==> forall k :: k in n.fields ==> Get(r.value, k) == n.fields[k].text
    ensures r.Ok? ==> forall k :: k !in n.fields ==> Get(r.value, k) == None
  {
    if n.Obj? && forall k | k in n.fields :: n.fields[k].Leaf? then
      Ok(map k | k in n.fields :: n.fields[k].text)
    else Raised
  }

  /** `"response" not in data or "body" not in data["response"]
      or "items" not in data["response"]["body"]`, evaluated left to right. */
  function LacksItems(data: Node): Outcome<bool> {
    var hasResponse :- In("response", data);
    if !hasResponse then Ok(true)
    else
      var response :- At(data, "response");
      var hasBody :- In("body", response);
      if !hasBody then Ok(true)
      else
        var body :- At(response, "body");
        var hasItems :- In("items", body);
        Ok(!hasItems)
  }

  /** `data["response"]["body"]["items"]`. */
  function ItemsNode(data: Node): Outcome<Node> {
    var response :- At(data, "response");
    var body :- At(response, "body");
    At(body, "items")
  }

  /** `data` is a dict whose `response/body/items` path leads to `items`. */
  predicate ItemsAt(data: Node, items: Node) {
    data.Obj? && "response" in data.fields && data.fields["response"].Obj?
    && "body" in data.fields["response"].fields && data.fields["response"].fields["body"].Obj?
    && "items" in data.fields["response"].fields["body"].fields
    && data.fields["response"].fields["body"].fields["items"] == items
  }

  /** `data` is a dict on which the path `response/body/items` stops short:
      one of the three keys is missing below dicts. */
  predicate PathStopsShort(data: Node) {
    data.Obj? &&
    ("response" !in data.fields
     || (data.fields["response"].Obj? && ("body" !in data.fields["response"].fields
         || (data.fields["response"].fields["body"].Obj?
             && "items" !in data.fields["response"].fields["body"].fields))))
  }

  /** get_emergency's normalisation (app.py:217-226): a missing path or a
      falsy `items` gives no records, a single `item` gives one, a list of
      them is passed through unchanged. */
  function EmergencyItems(data: Node): (r: Outcome<seq<Node>>)
    ensures PathStopsShort(data) ==> r == Ok([])
    ensures forall items :: ItemsAt(data, items) && !IsTruthy(items) ==> r == Ok([])
    ensures forall items :: ItemsAt(data, items) && IsTruthy(items) ==>
      r == (if items.Obj? && "item" in items.fields then Ok(AsList(items.fields["item"])) else Raised)
  {
    var lacks :- LacksItems(data);
    if lacks then Ok([])
    else
      var items :- ItemsNode(data);
      if !IsTruthy(items) then Ok([])
      else
        var item :- At(items, "item");
        Ok(AsList(item))
  }

  /** get_pharmacy's normalisation (app.py:308-319): as EmergencyItems, except
      that only an `items` that is None counts as empty. */
  function PharmacyItems(data: Node): (r: Outcome<seq<Node>>)
    ensures PathStopsShort(data) ==> r == Ok([])
    ensures forall items :: ItemsAt(data, items) && items == Leaf(None) ==> r == Ok([])
    ensures forall items :: ItemsAt(data, items) && items != Leaf(None) ==>
      r == (if items.Obj? && "item" in items.fields then Ok(AsList(items.fields["item"])) else Raised)
  {
    var lacks :- LacksItems(data);
    if lacks then Ok([])
    else
      var items :- ItemsNode(data);
      if items == Leaf(None) then Ok([])
      else
        var item :- At(items, "item");
        Ok(AsList(item))
  }

  /** The two normalisations differ only on an `items` that is falsy but not
      None: an empty dict, list or string. */
  lemma NormalisationsAgree(data: Node, items: Node)
    requires ItemsAt(data, items)
    requires IsTruthy(items) || items == Leaf(None)
    ensures EmergencyItems(data) == PharmacyItems(data)
  {
  }

  /** An empty `<items>` dict: get_emergency answers with no records, while
      get_pharmacy's `items["item"]` raises KeyError. */
  lemma EmptyItemsDictDiverges()
    ensures EmergencyItems(Obj(map["response" := Obj(map["body" := Obj(map["items" := Obj(map[])])])])) == Ok([])
    ensures PharmacyItems(Obj(map["response" := Obj(map["body" := Obj(map["items" := Obj(map[])])])])) == Raised
  {
    var items := Obj(map[]);
    var data := Obj(map["response" := Obj(map["body" := Obj(map["items" := items])])]);
    assert ItemsAt(data, items);
  }

  /** `data["OpenAPI_ServiceResponse"]["cmmMsgHeader"]["errMsg"]`. */
  function ProviderMessage(data: Node): Outcome<Node> {
    var envelope :- At(data, "OpenAPI_ServiceResponse");
    var header :- At(envelope, "cmmMsgHeader");
    At(header, "errMsg")
  }
}
