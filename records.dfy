/** The shapes of data the handlers work on: flat text records (a CSV row or
    one feed item), the tree xmltodict makes of a feed response, coordinates,
    and the replies a handler can give. */
module Records {
  import opened Wrappers

  /** A flat record of text fields: one `csv.DictReader` row, or one feed item.
      A field that maps to None is an empty XML element, or a column that a
      short CSV row does not reach. */
  type Record = map<string, Option<string>>

  /** Columns of the hospital registry CSV. */
  const CodeColumn := "암호화요양기호"
  const NameColumn := "요양기관명"
  const DeptColumn := "진료과목코드명"
  const AddressColumn := "주소"
  const PhoneColumn := "전화번호"
  const XColumn := "좌표(X)"
  const YColumn := "좌표(Y)"

  /** Python's `r.get(k)`: None for a missing key. */
  function Get(r: Record, k: string): Option<string> {
    if k in r then r[k] else None
  }

  /** Python's `r[k]`: raises KeyError for a missing key. */
  function Index(r: Record, k: string): Outcome<Option<string>> {
    if k in r then Ok(r[k]) else Raised
  }

  /** Python truthiness of a `str` or None. */
  predicate Truthy(v: Option<string>) {
    v.Some? && v.value != ""
  }

  /** The key `prefix + str(d) + suffix` for a day number 1..7, as in `f"dutyTime{i}s"`. */
  function DayKey(prefix: string, d: nat, suffix: char): (k: string)
    requires 1 <= d <= 7
    ensures |k| == |prefix| + 2 && k[..|prefix|] == prefix
    ensures '1' <= k[|prefix|] <= '7' && k[|prefix|] as int - '0' as int == d && k[|prefix| + 1] == suffix
  {
    prefix + [('0' as int + d) as char] + [suffix]
  }

  /** Two day keys with one prefix are equal only for the same day and suffix. */
  lemma DayKeyInjective(prefix: string, d1: nat, s1: char, d2: nat, s2: char)
    requires 1 <= d1 <= 7 && 1 <= d2 <= 7
    requires DayKey(prefix, d1, s1) == DayKey(prefix, d2, s2)
    ensures d1 == d2 && s1 == s2
  {
    var k := DayKey(prefix, d1, s1);
    assert k[|prefix|] == ('0' as int + d1) as char == ('0' as int + d2) as char;
    assert k[|prefix| + 1] == s1 == s2;
  }

  /** A latitude/longitude pair in degrees. */
  datatype Coord = Coord(lat: real, lon: real)

  /** The great-circle distance in km between two points (app.py's
      `calculate_distance`), supplied by the caller. */
  type Distance = (Coord, Coord) -> real

  /** What `xmltodict.parse` makes of an XML document: the text of an element
      (None when it is empty), a dict of child elements, or a list for an
      element that repeats. */
  datatype Node = Leaf(text: Option<string>) | Obj(fields: map<string, Node>) | Arr(elems: seq<Node>)

  /** How a call to the remote feed ended: `requests.get` raised, the body was
      not XML, or the body parsed to a tree. */
  datatype Fetch = Unreachable | Unparsable | Parsed(data: Node)

  /** What an HTTP handler answers: a JSON list of entries, or one of its
      error responses. */
  datatype Reply<T> =
    | Listing(entries: seq<T>)
    | MissingLocation              // 400: "위치 정보가 필요합니다."
    | RegistryMissing              // 500: "CSV 파일이 없습니다."
    | FeedFailure                  // 500: "공공데이터 통신 오류: ..."
    | FeedUnparsable               // 502: "공공데이터 응답 파싱 실패"
    | ProviderError(message: Node) // 500: the provider's errMsg
    | ServerError                  // 500: an exception escaped the handler
}
