/** Output rows: one flat mapping from column name to value per record. */
module Records {
  import opened Wrappers
  import opened Xml
  import opened Navigation

  /** A cell: the text of an element, the integer filing year, or Python's `None`
      (what a text read yields when the first child node is itself an element). */
  datatype Value = Str(s: string) | Int(i: int) | Null

  type Record = map<string, Value>

  /** The cell holding a text read. */
  function Field(v: Option<string>): Value {
    if v.Some? then Str(v.value) else Null
  }

  /** Every column of `base` is in `r` with its value unchanged. */
  ghost predicate Keeps(r: Record, base: Record) {
    forall k | k in base :: k in r && r[k] == base[k]
  }

  /** `r` is a copy of `base` in which exactly the columns `fields` were written. */
  ghost predicate Stamped(r: Record, base: Record, fields: set<string>) {
    && r.Keys == base.Keys + fields
    && forall k | k in base && k !in fields :: r[k] == base[k]
  }

  /** A copy that wrote only columns `base` did not have keeps all of `base`. */
  lemma StampedKeeps(r: Record, base: Record, fields: set<string>)
    requires Stamped(r, base, fields) && base.Keys !! fields
    ensures Keeps(r, base)
  {
  }

  /** One text read of a column table: column `key` takes the text of child `tag`
      of the node reached along `path`. */
  datatype Read = Read(key: string, path: seq<string>, tag: string, optional: bool)

  /** The read succeeds under `p`: the path leads somewhere and the tag is readable
      there. */
  ghost predicate Reads(p: Node, x: Read) {
    var q := Walk(Some(p), x.path);
    q.Some? && ReadOk(q.value, x.tag, x.optional)
  }

  /** Column `x.key` of `r` holds what the read gives under `p`. */
  ghost predicate HoldsRead(r: Record, p: Node, x: Read) {
    && Reads(p, x)
    && x.key in r
    && r[x.key] == Field(ReadText(Walk(Some(p), x.path).value, x.tag, x.optional))
  }

  /** Performs one read: descends along the path, then reads the tag's text. */
  function ReadOne(p: Node, x: Read): (r: Result<Option<string>>)
    ensures r.Success? <==> Reads(p, x)
    ensures r.Success? ==> r.value == ReadText(Walk(Some(p), x.path).value, x.tag, x.optional)
  {
    var q :- Descend(p, x.path);
    ExtractSingleTagValue(q, x.tag, x.optional)
  }

  /** The columns a table writes. */
  function KeysOf(spec: seq<Read>): set<string> {
    set i | 0 <= i < |spec| :: spec[i].key
  }

  /** No column is written twice. */
  predicate DistinctKeys(spec: seq<Read>) {
    forall i, j | 0 <= i < j < |spec| :: spec[i].key != spec[j].key
  }

  /** Every read of the table succeeds under `parent`. */
  ghost predicate AllReadable(parent: Option<Node>, spec: seq<Read>) {
    parent.Some? && forall i | 0 <= i < |spec| :: Reads(parent.value, spec[i])
  }

  /** Every column of the table holds what its read gives under `parent`. */
  ghost predicate AllRead(r: Record, parent: Option<Node>, spec: seq<Read>) {
    parent.Some? && forall i | 0 <= i < |spec| :: HoldsRead(r, parent.value, spec[i])
  }

  /** The first read of the table under `p` that fails gives `e`. */
  ghost predicate FirstFailure(p: Node, spec: seq<Read>, e: Error) {
    exists i | 0 <= i < |spec| ::
      && (forall j | 0 <= j < i :: Reads(p, spec[j]))
      && ReadOne(p, spec[i]) == Failure(e)
  }

  /** Performs the reads of a table under `p` in order and writes each text into its
      column of a copy of `base`; the first read that fails aborts, with that
      read's error. */
  function ReadInto(base: Record, p: Node, spec: seq<Read>): (r: Result<Record>)
    requires DistinctKeys(spec)
    ensures r.Success? <==> AllReadable(Some(p), spec)
    ensures r.Success? ==> Stamped(r.value, base, KeysOf(spec)) && AllRead(r.value, Some(p), spec)
    ensures r.Failure? ==> FirstFailure(p, spec, r.error)
    decreases |spec|
  {
    if |spec| == 0 then Success(base)
    else
      var head := ReadOne(p, spec[0]);
      if head.Failure? then
        assert FirstFailure(p, spec, head.error) by {
          assert ReadOne(p, spec[0]) == Failure(head.error);
        }
        Failure(head.error)
      else
        ReadStep(p, spec);
        var r := ReadInto(base[spec[0].key := Field(head.value)], p, spec[1..]);
        if r.Success? then
          WriteStep(base, p, spec, head.value, r.value);
          r
        else
          FailureStep(p, spec, r.error);
          r
  }

  /** Splitting off the first read of a table. */
  lemma ReadStep(p: Node, spec: seq<Read>)
    requires |spec| > 0 && DistinctKeys(spec)
    ensures DistinctKeys(spec[1..])
    ensures AllReadable(Some(p), spec) <==> Reads(p, spec[0]) && AllReadable(Some(p), spec[1..])
    ensures KeysOf(spec) == {spec[0].key} + KeysOf(spec[1..])
    ensures spec[0].key !in KeysOf(spec[1..])
  {
    var rest := spec[1..];
    assert forall i | 0 <= i < |rest| :: rest[i] == spec[i + 1];
    assert forall k | k in KeysOf(rest) :: k in KeysOf(spec);
    if AllReadable(Some(p), rest) && Reads(p, spec[0]) {
      forall i | 0 <= i < |spec|
        ensures Reads(p, spec[i])
      {
        if i > 0 {
          assert spec[i] == rest[i - 1];
        }
      }
    }
  }

  /** The first column written, then the rest: together the whole table. */
  lemma WriteStep(base: Record, p: Node, spec: seq<Read>, v: Option<string>, r: Record)
    requires |spec| > 0 && DistinctKeys(spec)
    requires Reads(p, spec[0]) && v == ReadText(Walk(Some(p), spec[0].path).value, spec[0].tag, spec[0].optional)
    requires Stamped(r, base[spec[0].key := Field(v)], KeysOf(spec[1..])) && AllRead(r, Some(p), spec[1..])
    ensures Stamped(r, base, KeysOf(spec)) && AllRead(r, Some(p), spec)
  {
    ReadStep(p, spec);
    var rest := spec[1..];
    forall i | 0 <= i < |spec|
      ensures HoldsRead(r, p, spec[i])
    {
      if i > 0 {
        assert spec[i] == rest[i - 1];
      }
    }
  }

  /** A failure among the later reads is the table's first failure when the first
      read succeeded. */
  lemma FailureStep(p: Node, spec: seq<Read>, e: Error)
    requires |spec| > 0 && Reads(p, spec[0])
    requires FirstFailure(p, spec[1..], e)
    ensures FirstFailure(p, spec, e)
  {
    var rest := spec[1..];
    var i :| 0 <= i < |rest| && (forall j | 0 <= j < i :: Reads(p, rest[j])) && ReadOne(p, rest[i]) == Failure(e);
    assert rest[i] == spec[i + 1];
    assert forall j | 0 < j < i + 1 :: spec[j] == rest[j - 1];
  }

  /** Columns read earlier survive later writes to other columns. */
  lemma AllReadKept(r: Record, base: Record, fields: set<string>, parent: Option<Node>, spec: seq<Read>)
    requires AllRead(base, parent, spec) && Stamped(r, base, fields) && KeysOf(spec) !! fields
    ensures AllRead(r, parent, spec)
  {
    forall i | 0 <= i < |spec|
      ensures HoldsRead(r, parent.value, spec[i])
    {
      assert spec[i].key in KeysOf(spec);
    }
  }

  /** Two rounds of writes are one round writing both sets of columns. */
  lemma StampedTwice(r: Record, mid: Record, base: Record, first: set<string>, second: set<string>)
    requires Stamped(mid, base, first) && Stamped(r, mid, second)
    ensures Stamped(r, base, first + second)
  {
  }

  // Column names that every listing uses with the same spelling.
  const FilingYearKey := "Filing Year"
  const EinKey := "EIN"
  const CityKey := "City/Town"
  const StateKey := "State/Province"
  const ZipKey := "Zip Code"
  const TypeKey := "Type"
  const CountryKey := "Country"
  const Address1Key := "Address 1"
  const PhoneKey := "Telephone Number"
}
