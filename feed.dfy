/** `get_data`: choose the feed and array element for a region index, fetch
    and decode it, and coerce six named fields to ints. */
module Feed {
  import opened Wrappers
  import opened PyJson

  const DATA_SOURCE_CA: string := "https://api.covid19tracker.ca/summary/"
  const DATA_SOURCE_PROV: string := "https://api.covid19tracker.ca/summary/split/"

  /** The region index that selects the Canada-wide summary. */
  const CANADA: int := -1

  /** The six fields read from a summary record, in the order returned. */
  const FIELDS: seq<string> := ["total_cases", "change_cases", "total_vaccinations",
                                "change_vaccinations", "total_vaccinated", "change_vaccinated"]

  /** The six values `get_data` returns, in the order of FIELDS. */
  datatype Metrics = Metrics(
    totalCases: int, changeCases: int,
    totalVaccinations: int, changeVaccinations: int,
    totalVaccinated: int, changeVaccinated: int)

  /** The value of the k-th field of FIELDS. */
  function Field(m: Metrics, k: nat): int
    requires k < 6
  {
    match k
    case 0 => m.totalCases
    case 1 => m.changeCases
    case 2 => m.totalVaccinations
    case 3 => m.changeVaccinations
    case 4 => m.totalVaccinated
    case 5 => m.changeVaccinated
  }

  /** What `magtag.network.fetch(url).json()` gives for each URL: the decoded
      body, or the exception the transport or the decoder raised. */
  type Network = string -> Result<Json, Exc>

  /** The URL fetched and the array element read for a region index. */
  datatype Source = Source(url: string, element: int)

  function SourceOf(idx: int): (s: Source)
    ensures idx == CANADA ==> s == Source(DATA_SOURCE_CA, 0)
    ensures idx != CANADA ==> s == Source(DATA_SOURCE_PROV, idx)
  {
    if idx == CANADA then Source(DATA_SOURCE_CA, 0) else Source(DATA_SOURCE_PROV, idx)
  }

  /** `json_data["data"][idx]`. */
  function Record(body: Json, element: int): (r: Result<Json, Exc>)
    ensures r.Ok? <==> Lookup(body, "data").Ok? && Element(Lookup(body, "data").value, element).Ok?
    ensures Lookup(body, "data").Err? ==> r == Err(Lookup(body, "data").error)
    ensures Lookup(body, "data").Ok? ==> r == Element(Lookup(body, "data").value, element)
  {
    match Lookup(body, "data")
    case Err(e) => Err(e)
    case Ok(data) => Element(data, element)
  }

  /** `int(record[name])`. */
  function Coerce(record: Json, name: string): (r: Result<int, Exc>)
    ensures r.Ok? <==> record.Dict? && name in record.entries && IntOf(record.entries[name]).Ok?
    ensures r.Ok? ==> r == IntOf(record.entries[name])
    ensures record.Dict? && name in record.entries ==> r == IntOf(record.entries[name])
    ensures record.Dict? && name !in record.entries ==> r == Err(KeyError)
    ensures !record.Dict? ==> r == Err(TypeError)
  {
    match Lookup(record, name)
    case Err(e) => Err(e)
    case Ok(v) => IntOf(v)
  }

  /** Coerces each named field in turn; the first failure is the one raised. */
  function CoerceAll(record: Json, names: seq<string>): (r: Result<seq<int>, Exc>)
    ensures r.Ok? ==> |r.value| == |names|
    ensures r.Ok? ==> forall k :: 0 <= k < |names| ==> Coerce(record, names[k]) == Ok(r.value[k])
    ensures r.Ok? <==> forall k :: 0 <= k < |names| ==> Coerce(record, names[k]).Ok?
    ensures r.Err? ==> exists k :: 0 <= k < |names| && Coerce(record, names[k]) == Err(r.error)
                                   && forall j :: 0 <= j < k ==> Coerce(record, names[j]).Ok?
    decreases |names|
  {
    if names == [] then Ok([])
    else
      match Coerce(record, names[0])
      case Err(e) =>
        assert Coerce(record, names[0]) == Err(e);
        Err(e)
      case Ok(n) =>
        match CoerceAll(record, names[1..])
        case Err(e) =>
          var k :| 0 <= k < |names[1..]| && Coerce(record, names[1..][k]) == Err(e)
                   && forall j :: 0 <= j < k ==> Coerce(record, names[1..][j]).Ok?;
          assert Coerce(record, names[k + 1]) == Err(e);
          assert forall j :: 0 <= j < k + 1 ==> Coerce(record, names[j]).Ok? by {
            forall j | 0 <= j < k + 1 ensures Coerce(record, names[j]).Ok? {
              if j > 0 { assert names[j] == names[1..][j - 1]; }
            }
          }
          Err(e)
        case Ok(rest) =>
          assert forall k :: 1 <= k < |names| ==> names[k] == names[1..][k - 1];
          Ok([n] + rest)
  }

  /** `get_data(idx)` with the network's answers. */
  function GetData(idx: int, network: Network): Result<Metrics, Exc>
  {
    var src := SourceOf(idx);
    match network(src.url)
    case Err(e) => Err(e)
    case Ok(body) =>
      match Record(body, src.element)
      case Err(e) => Err(e)
      case Ok(rec) =>
        match CoerceAll(rec, FIELDS)
        case Err(e) => Err(e)
        case Ok(v) => Ok(Metrics(v[0], v[1], v[2], v[3], v[4], v[5]))
  }

  /** `get_data(idx)` succeeds exactly when the selected URL answers, its body
      has a `data` array holding the selected element, and all six fields of
      that element coerce; the results are those coercions, in order. A
      transport or decoding failure is passed on unchanged. */
  lemma GetDataSpec(idx: int, network: Network)
    ensures var src := SourceOf(idx); var r := GetData(idx, network);
      r.Ok? <==> && network(src.url).Ok?
                 && Record(network(src.url).value, src.element).Ok?
                 && forall k :: 0 <= k < 6 ==> Coerce(Record(network(src.url).value, src.element).value, FIELDS[k]).Ok?
    ensures var src := SourceOf(idx); var r := GetData(idx, network);
      r.Ok? ==> forall k :: 0 <= k < 6 ==>
        Coerce(Record(network(src.url).value, src.element).value, FIELDS[k]) == Ok(Field(r.value, k))
    ensures network(SourceOf(idx).url).Err? ==> GetData(idx, network) == Err(network(SourceOf(idx).url).error)
    ensures var src := SourceOf(idx); var r := GetData(idx, network);
      network(src.url).Ok? && Record(network(src.url).value, src.element).Err? ==>
        r == Err(Record(network(src.url).value, src.element).error)
    ensures var src := SourceOf(idx); var r := GetData(idx, network);
      network(src.url).Ok? && Record(network(src.url).value, src.element).Ok? && r.Err? ==>
        var rec := Record(network(src.url).value, src.element).value;
        exists k :: 0 <= k < 6 && Coerce(rec, FIELDS[k]) == Err(r.error)
                    && forall j :: 0 <= j < k ==> Coerce(rec, FIELDS[j]).Ok?
  {
  }

  /** When field k is the first of the six that fails to coerce, `get_data`
      raises exactly that field's exception. */
  lemma GetDataFirstFailure(idx: int, network: Network, rec: Json, k: nat)
    requires network(SourceOf(idx).url).Ok?
    requires Record(network(SourceOf(idx).url).value, SourceOf(idx).element) == Ok(rec)
    requires k < 6 && Coerce(rec, FIELDS[k]).Err?
    requires forall j :: 0 <= j < k ==> Coerce(rec, FIELDS[j]).Ok?
    ensures GetData(idx, network) == Err(Coerce(rec, FIELDS[k]).error)
  {
    var r := CoerceAll(rec, FIELDS);
    assert r.Err?;
    var k' :| 0 <= k' < 6 && Coerce(rec, FIELDS[k']) == Err(r.error)
              && forall j :: 0 <= j < k' ==> Coerce(rec, FIELDS[j]).Ok?;
    assert k' == k;
  }

  /** `get_data(idx)` consults only the answer for the URL its index selects. */
  lemma GetDataReadsOnlySource(idx: int, n1: Network, n2: Network)
    requires n1(SourceOf(idx).url) == n2(SourceOf(idx).url)
    ensures GetData(idx, n1) == GetData(idx, n2)
  {
  }

  /** A summary record as the API sends it, with each field as a JSON int. */
  function Encode(m: Metrics): (v: Json)
    ensures v.Dict? && forall k :: 0 <= k < 6 ==> FIELDS[k] in v.entries
  {
    Dict(map[FIELDS[0] := Int(m.totalCases), FIELDS[1] := Int(m.changeCases),
             FIELDS[2] := Int(m.totalVaccinations), FIELDS[3] := Int(m.changeVaccinations),
             FIELDS[4] := Int(m.totalVaccinated), FIELDS[5] := Int(m.changeVaccinated)])
  }

  /** A response body `{"data": [...]}` listing the given records. */
  function Payload(records: seq<Metrics>): Json
  {
    Dict(map["data" := List(seq(|records|, i requires 0 <= i < |records| => Encode(records[i])))])
  }

  /** Decoding a well-formed response gives back the record at the selected
      index, field for field. */
  lemma GetDataOfPayload(idx: int, network: Network, records: seq<Metrics>)
    requires network(SourceOf(idx).url) == Ok(Payload(records))
    requires -|records| <= SourceOf(idx).element < |records|
    ensures GetData(idx, network) == Ok(ListIndex(records, SourceOf(idx).element).value)
  {
    var e := SourceOf(idx).element;
    var i := if e >= 0 then e else |records| + e;
    var m := records[i];
    var rec := Encode(m);
    assert Record(Payload(records), e) == Ok(rec);
    assert forall a, b :: 0 <= a < b < 6 ==> FIELDS[a] != FIELDS[b];
    forall k | 0 <= k < 6 ensures Coerce(rec, FIELDS[k]) == Ok(Field(m, k)) {
    }
  }
}
