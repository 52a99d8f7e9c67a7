/** The database loader `init_database` (Init_db.py:21-77) without the
    database: the CSV rows with two readable coordinates become tuples, in
    CSV order, and the tuples are handed to `executemany` in consecutive
    batches of 1000. */
module InitDb {
  import opened Wrappers
  import opened PyText
  import opened PyNum
  import opened Records
  import opened Visits

  /** Init_db.py's own `safe_float` (Init_db.py:15-19): None for None, for an
      empty or whitespace-only string and for one `float()` rejects. */
  function LoaderSafeFloat(val: Option<string>): (r: Option<real>)
    ensures !Truthy(val) || Strip(val.value) == "" ==> r == None
  {
    if !Truthy(val) || Strip(val.value) == "" then None else PyFloat(val.value)
  }

  /** The loader's `safe_float` and the web application's (app.py:46-56)
      agree on every value. */
  lemma SafeFloatsAgree(val: Option<string>)
    ensures LoaderSafeFloat(val) == SafeFloat(val)
  {
    if val.Some? && val.value == "" {
      assert Strip(val.value) == "";
    }
  }

  /** The loader reads a coordinate written as ASCII digits, with or without
      a fraction part and surrounded by whitespace, as the number it spells. */
  lemma LoaderSafeFloatOfDecimal(l: string, ip: string, fp: string, r: string)
    requires ip != [] && fp != [] && AllDigits(ip) && AllDigits(fp)
    requires forall i :: 0 <= i < |l| ==> IsSpace(l[i])
    requires forall i :: 0 <= i < |r| ==> IsSpace(r[i])
    ensures LoaderSafeFloat(Some(l + ip + r)) == Some(PartValue(ip) as real)
    ensures LoaderSafeFloat(Some(l + (ip + "." + fp) + r)) == Some(PartValue(ip) as real + PartValue(fp) as real / Pow10(|fp|))
  {
    SafeFloatsAgree(Some(l + ip + r));
    SafeFloatsAgree(Some(l + (ip + "." + fp) + r));
    SafeFloatOfWhole(l, ip, r);
    SafeFloatOfDecimal(l, ip, fp, r);
  }

  /** One tuple of `data_list`:
      (암호화요양기호, 요양기관명, dept, 주소, 전화번호, x, y). */
  datatype Row = Row(code: Option<string>, name: Option<string>, dept: string,
                     address: Option<string>, phone: Option<string>, x: real, y: real)

  /** The tuple for one CSV row (Init_db.py:38-54), None when the row is skipped. */
  function ToRow(r: Record): (t: Option<Row>)
    ensures t.Some? <==> LoaderSafeFloat(Get(r, XColumn)).Some? && LoaderSafeFloat(Get(r, YColumn)).Some?
    ensures t.Some? ==>
      t.value.x == LoaderSafeFloat(Get(r, XColumn)).value && t.value.y == LoaderSafeFloat(Get(r, YColumn)).value
      && t.value.code == Get(r, CodeColumn) && t.value.name == Get(r, NameColumn)
      && t.value.address == Get(r, AddressColumn) && t.value.phone == Get(r, PhoneColumn)
      && (t.value.dept == "" <==> !Truthy(Get(r, DeptColumn)))
      && (Truthy(Get(r, DeptColumn)) ==> t.value.dept == Get(r, DeptColumn).value)
  {
    var x := LoaderSafeFloat(Get(r, XColumn));
    var y := LoaderSafeFloat(Get(r, YColumn));
    if x.None? || y.None? then None
    else
      var dept := Get(r, DeptColumn).GetOr("");
      Some(Row(Get(r, CodeColumn), Get(r, NameColumn), dept, Get(r, AddressColumn), Get(r, PhoneColumn), x.value, y.value))
  }

  /** `data_list` after reading `rows` in order. */
  function DataList(rows: seq<Record>): seq<Row> {
    Kept(rows, ToRow)
  }

  /** Init_db.py:33-54, the loop that fills `data_list`. */
  method ReadRows(rows: seq<Record>) returns (dataList: seq<Row>)
    ensures dataList == DataList(rows)
  {
    dataList := [];
    for i := 0 to |rows|
      invariant dataList == DataList(rows[..i])
    {
      var r := rows[i];
      assert rows[..i + 1][..i] == rows[..i];
      var x := LoaderSafeFloat(Get(r, XColumn));
      var y := LoaderSafeFloat(Get(r, YColumn));
      if x.None? || y.None? {
        continue;
      }
      var dept := Get(r, DeptColumn).GetOr("");
      dataList := dataList + [Row(Get(r, CodeColumn), Get(r, NameColumn), dept, Get(r, AddressColumn), Get(r, PhoneColumn), x.value, y.value)];
    }
    assert rows[..|rows|] == rows;
  }

  /** Reading `a` then `b` gives `a`'s tuples, then `b`'s: the CSV order is kept. */
  lemma DataListAppend(a: seq<Record>, b: seq<Record>)
    ensures DataList(a + b) == DataList(a) + DataList(b)
  {
    KeptAppend(a, b, ToRow);
  }

  /** A tuple is in `data_list` exactly when some row gives it. */
  lemma DataListMembers(rows: seq<Record>, t: Row)
    ensures t in DataList(rows) <==> exists i :: 0 <= i < |rows| && ToRow(rows[i]) == Some(t)
  {
    KeptMembers(rows, ToRow, t);
  }

  /** `batch_size`. */
  const BatchSize := 1000

  function Min(a: int, b: int): int {
    if a <= b then a else b
  }

  /** How many batches the loop makes: `len(range(0, n, 1000))`. */
  function BatchCount(n: nat): nat {
    (n + BatchSize - 1) / BatchSize
  }

  /** Batch `k`: `data_list[i:i + 1000]` for `i = 1000 * k`. */
  function Batch<T>(data: seq<T>, k: nat): seq<T>
    requires k < BatchCount(|data|)
  {
    data[k * BatchSize..Min((k + 1) * BatchSize, |data|)]
  }

  /** The batches the loop hands to `executemany`, in order. */
  function Batches<T>(data: seq<T>): (bs: seq<seq<T>>)
    ensures |bs| == BatchCount(|data|)
  {
    seq(BatchCount(|data|), k requires 0 <= k < BatchCount(|data|) => Batch(data, k))
  }

  /** The numbers the loop reports, `i + len(batch)`, one per batch. */
  function Progress<T>(data: seq<T>): (ps: seq<nat>)
    ensures |ps| == BatchCount(|data|)
  {
    seq(BatchCount(|data|), k requires 0 <= k < BatchCount(|data|) => Min((k + 1) * BatchSize, |data|))
  }

  /** Init_db.py:64-68, the batching loop. */
  method InsertBatches<T>(data: seq<T>) returns (batches: seq<seq<T>>, progress: seq<nat>)
    ensures batches == Batches(data) && progress == Progress(data)
  {
    batches, progress := [], [];
    var i := 0;
    while i < |data|
      invariant i == |batches| * BatchSize && |progress| == |batches|
      invariant |batches| == 0 || (|batches| - 1) * BatchSize < |data|
      invariant forall k :: 0 <= k < |batches| ==>
        k < BatchCount(|data|) && batches[k] == Batch(data, k) && progress[k] == Min((k + 1) * BatchSize, |data|)
      decreases |data| - i
    {
      var batch := data[i..Min(i + BatchSize, |data|)];
      assert |batches| < BatchCount(|data|) && batch == Batch(data, |batches|);
      batches := batches + [batch];
      progress := progress + [i + |batch|];
      i := i + BatchSize;
    }
  }

  function Flatten<T>(bs: seq<seq<T>>): seq<T>
    decreases |bs|
  {
    if bs == [] then [] else Flatten(bs[..|bs| - 1]) + bs[|bs| - 1]
  }

  /** The first `k` batches hold the first `min(1000 * k, n)` tuples. */
  lemma {:induction false} FlattenPrefix<T>(data: seq<T>, k: nat)
    requires k <= BatchCount(|data|)
    ensures Flatten(Batches(data)[..k]) == data[..Min(k * BatchSize, |data|)]
  {
    if k > 0 {
      var bs := Batches(data);
      assert bs[..k][..k - 1] == bs[..k - 1];
      FlattenPrefix(data, k - 1);
      assert (k - 1) * BatchSize < |data|;
      assert data[..Min(k * BatchSize, |data|)] ==
        data[..Min((k - 1) * BatchSize, |data|)] + data[(k - 1) * BatchSize..Min(k * BatchSize, |data|)];
    }
  }

  /** The batches are consecutive slices: together they are `data_list`. */
  lemma BatchesCover<T>(data: seq<T>)
    ensures Flatten(Batches(data)) == data
  {
    var bs := Batches(data);
    FlattenPrefix(data, |bs|);
    assert bs[..|bs|] == bs;
  }

  /** Every batch holds between 1 and 1000 tuples, and every batch but the last exactly 1000. */
  lemma BatchSizes<T>(data: seq<T>, k: nat)
    requires k < BatchCount(|data|)
    ensures 0 < |Batches(data)[k]| <= BatchSize
    ensures k < BatchCount(|data|) - 1 ==> |Batches(data)[k]| == BatchSize
  {
  }

  /** The reported counts increase strictly. */
  lemma ProgressMonotone<T>(data: seq<T>, j: nat, k: nat)
    requires j < k < BatchCount(|data|)
    ensures Progress(data)[j] < Progress(data)[k]
  {
  }

  /** A non-empty `data_list` has at least one batch, and the last count
      reported is `len(data_list)`; an empty one has no batch and no count. */
  lemma ProgressEndsAtLength<T>(data: seq<T>)
    ensures |data| == 0 <==> Progress(data) == []
    ensures |data| > 0 ==> Progress(data)[|Progress(data)| - 1] == |data|
  {
  }

  /** `init_database` with the CSV rows passed in (None when the file cannot
      be opened, which the loader catches): the batches it hands to the
      database and the counts it reports. */
  method InitDatabase(csv: Option<seq<Record>>) returns (batches: seq<seq<Row>>, progress: seq<nat>)
    ensures csv.None? ==> batches == [] && progress == []
    ensures csv.Some? ==> batches == Batches(DataList(csv.value)) && progress == Progress(DataList(csv.value))
  {
    if csv.None? {
      return [], [];
    }
    var dataList := ReadRows(csv.value);
    batches, progress := InsertBatches(dataList);
  }
}
