/** The staff listing: one row per person found in a return's three employee
    groups, each row starting from the filer's common columns. */
module Staff {
  import opened Wrappers
  import opened Xml
  import opened Navigation
  import opened Records
  import opened Header
  import opened Address
  import opened Groups
  import opened Filer
  import opened StaffColumns

  /** The filer's columns; any missing or unreadable part aborts the document. */
  function CommonData(dom: Node): (r: Result<Record>)
    ensures r.Success? <==> FilerReadable(dom)
    ensures r.Success? ==> CommonColumns(r.value, dom)
  {
    var header :- FiledHeader(dom);
    CommonTable();
    HeaderInto(header, CommonReads)
  }

  /** A copy of `common` marked with the group `tag`, then filled from the table
      `spec` read under the instance `e`. */
  function TypedInto(common: Record, tag: string, e: Node, spec: seq<Read>): (r: Result<Record>)
    requires DistinctKeys(spec) && EmployeeTypeKey !in KeysOf(spec)
    ensures r.Success? <==> AllReadable(Some(e), spec)
    ensures r.Success? ==> && Stamped(r.value, common, {EmployeeTypeKey} + KeysOf(spec))
                           && r.value[EmployeeTypeKey] == Str(tag)
                           && AllRead(r.value, Some(e), spec)
  {
    var typed := common[EmployeeTypeKey := Str(tag)];
    var r := ReadInto(typed, e, spec);
    if r.Success? then StampedTwice(r.value, typed, common, {EmployeeTypeKey}, KeysOf(spec)); r else r
  }

  /** One section A instance; never skipped. */
  function SectionARecord(common: Record, l: Located): (r: Result<Record>)
    ensures r.Success? <==> AllReadable(Some(l.node), SectionAFields)
    ensures r.Success? ==> SectionAColumns(r.value, common, l.node)
  {
    SectionATable();
    TypedInto(common, SectionATag, l.node, SectionAFields)
  }

  /** No section A instance aborts the document. */
  ghost predicate SectionAReadable(items: seq<Located>) {
    forall i | 0 <= i < |items| :: AllReadable(Some(items[i].node), SectionAFields)
  }

  /** The section A loop: one row per instance, in instance order. */
  function SectionARows(items: seq<Located>, common: Record): (r: Result<seq<Record>>)
    ensures r.Success? <==> SectionAReadable(items)
    ensures r.Success? ==> && |r.value| == |items|
                           && forall k | 0 <= k < |items| :: SectionAColumns(r.value[k], common, items[k].node)
  {
    ExpandAll(items, common, SectionARecord)
  }

  /** One row per section A instance anywhere in the document, in document order. */
  function ExtractEmployeeInfo1(dom: Node, common: Record): (r: Result<seq<Record>>)
    ensures r.Success? <==> SectionAReadable(ExtractTagInstances(dom, SectionATag))
    ensures r.Success? ==>
              var items := ExtractTagInstances(dom, SectionATag);
              && |r.value| == |items|
              && forall k | 0 <= k < |items| :: SectionAColumns(r.value[k], common, items[k].node)
  {
    SectionARows(ExtractTagInstances(dom, SectionATag), common)
  }

  /** The address part of a trustee row, written into `named`: absent without an
      address element, which skips the instance. */
  function PaidInto(named: Record, e: Node): (r: Result<Option<Record>>)
    ensures r.Success? <==> PayReadable(e)
    ensures r.Success? ==> (r.value.Some? <==> HasAddress(e))
    ensures r.Success? && r.value.Some? ==>
              Stamped(r.value.value, named, {EmployeeAddressKey, CompensationKey}) && PayColumns(r.value.value, e)
  {
    TrusteeTable();
    var address :- RecipientAddressText(e);
    if address.None? then Success(None)
    else
      var addressed := named[EmployeeAddressKey := Str(address.value)];
      var paid :- ReadInto(addressed, e, TrusteePayFields);
      StampedTwice(paid, addressed, named, {EmployeeAddressKey}, {CompensationKey});
      Success(Some(paid))
  }

  /** Name and title, read into a copy of `common` marked as a trustee row. */
  function NamedInto(common: Record, e: Node): (r: Result<Record>)
    ensures r.Success? <==> AllReadable(Some(e), TrusteeFields)
    ensures r.Success? ==> && Stamped(r.value, common, {EmployeeTypeKey, EmployeeNameKey, EmployeeTitleKey})
                           && r.value[EmployeeTypeKey] == Str(TrusteeTag)
                           && AllRead(r.value, Some(e), TrusteeFields)
  {
    TrusteeTable();
    TypedInto(common, TrusteeTag, e, TrusteeFields)
  }

  /** One officer/director/trustee instance; skipped when it has no address. */
  function TrusteeRecord(common: Record, l: Located): (r: Result<Option<Record>>)
    ensures r.Success? <==> TrusteeReadable(l.node)
    ensures r.Success? ==> (r.value.Some? <==> HasAddress(l.node))
  {
    var named :- NamedInto(common, l.node);
    PaidInto(named, l.node)
  }

  /** A readable trustee instance with an address yields a row, and that row
      holds the instance's columns. */
  lemma TrusteeRecordColumns(common: Record, l: Located)
    requires TrusteeReadable(l.node) && HasAddress(l.node)
    ensures TrusteeRecord(common, l).Success? && TrusteeRecord(common, l).value.Some?
    ensures TrusteeColumns(TrusteeRecord(common, l).value.value, common, l.node)
  {
    var named := NamedInto(common, l.node).value;
    TrusteeFinished(common, l.node, named, PaidInto(named, l.node).value.value);
  }

  /** Name and title, then address and compensation: a complete trustee row. */
  lemma TrusteeFinished(common: Record, e: Node, named: Record, paid: Record)
    requires Stamped(named, common, {EmployeeTypeKey, EmployeeNameKey, EmployeeTitleKey})
    requires named[EmployeeTypeKey] == Str(TrusteeTag) && AllRead(named, Some(e), TrusteeFields)
    requires Stamped(paid, named, {EmployeeAddressKey, CompensationKey}) && PayColumns(paid, e)
    ensures TrusteeColumns(paid, common, e)
  {
    TrusteeTable();
    AllReadKept(paid, named, {EmployeeAddressKey, CompensationKey}, Some(e), TrusteeFields);
    StampedTwice(paid, named, common, {EmployeeTypeKey, EmployeeNameKey, EmployeeTitleKey},
                 {EmployeeAddressKey, CompensationKey});
  }

  /** No officer/director/trustee instance aborts the document. */
  ghost predicate TrusteesReadable(items: seq<Located>) {
    forall i | 0 <= i < |items| :: TrusteeReadable(items[i].node)
  }

  /** The trustee loop: one row per addressed instance, in instance order. */
  function TrusteeRows(items: seq<Located>, common: Record): (r: Result<seq<Record>>)
    ensures r.Success? <==> TrusteesReadable(items)
    ensures r.Success? ==> |r.value| == CountWhere(items, Addressed)
  {
    var r := Expand(items, common, TrusteeRecord);
    if r.Success? then KeptCountWhere(items, common, TrusteeRecord, Addressed); r else r
  }

  /** One row per addressed officer/director/trustee instance, in document order. */
  function ExtractEmployeeInfo2(dom: Node, common: Record): (r: Result<seq<Record>>)
    ensures r.Success? <==> TrusteesReadable(ExtractTagInstances(dom, TrusteeTag))
    ensures r.Success? ==> |r.value| == CountWhere(ExtractTagInstances(dom, TrusteeTag), Addressed)
  {
    TrusteeRows(ExtractTagInstances(dom, TrusteeTag), common)
  }

  /** Row `k` comes from the addressed instance at position `Origins[k]`, those
      positions increase, and each row holds what that instance gives. */
  lemma TrusteeRowsColumns(items: seq<Located>, common: Record)
    requires TrusteesReadable(items)
    ensures TrusteeRows(items, common).Success?
    ensures var rows, idx := TrusteeRows(items, common).value, Origins(items, common, TrusteeRecord);
            && Selects(items, common, TrusteeRecord, idx, rows)
            && forall k | 0 <= k < |rows| :: HasAddress(items[idx[k]].node) && TrusteeColumns(rows[k], common, items[idx[k]].node)
  {
    var rows, idx := Expand(items, common, TrusteeRecord).value, Origins(items, common, TrusteeRecord);
    ExpandOrigins(items, common, TrusteeRecord);
    forall k | 0 <= k < |rows|
      ensures HasAddress(items[idx[k]].node) && TrusteeColumns(rows[k], common, items[idx[k]].node)
    {
      assert TrusteeRecord(common, items[idx[k]]) == Success(Some(rows[k]));
      assert TrusteeReadable(items[idx[k]].node);
      TrusteeRecordColumns(common, items[idx[k]]);
    }
  }

  /** One key-employee instance; never skipped. */
  function KeyEmployeeRecord(common: Record, l: Located): (r: Result<Record>)
    ensures r.Success? <==> AllReadable(Some(l.node), KeyEmployeeFields)
    ensures r.Success? ==> KeyEmployeeColumns(r.value, common, l.node)
  {
    KeyEmployeeTable();
    TypedInto(common, KeyEmployeeTag, l.node, KeyEmployeeFields)
  }

  /** No key-employee instance aborts the document. */
  ghost predicate KeyEmployeesReadable(items: seq<Located>) {
    forall i | 0 <= i < |items| :: AllReadable(Some(items[i].node), KeyEmployeeFields)
  }

  /** The key-employee loop: one row per instance, in instance order. */
  function KeyEmployeeRows(items: seq<Located>, common: Record): (r: Result<seq<Record>>)
    ensures r.Success? <==> KeyEmployeesReadable(items)
    ensures r.Success? ==> && |r.value| == |items|
                           && forall k | 0 <= k < |items| :: KeyEmployeeColumns(r.value[k], common, items[k].node)
  {
    ExpandAll(items, common, KeyEmployeeRecord)
  }

  /** One row per key-employee instance anywhere in the document, in document order. */
  function ExtractEmployeeInfo3(dom: Node, common: Record): (r: Result<seq<Record>>)
    ensures r.Success? <==> KeyEmployeesReadable(ExtractTagInstances(dom, KeyEmployeeTag))
    ensures r.Success? ==>
              var items := ExtractTagInstances(dom, KeyEmployeeTag);
              && |r.value| == |items|
              && forall k | 0 <= k < |items| :: KeyEmployeeColumns(r.value[k], common, items[k].node)
  {
    KeyEmployeeRows(ExtractTagInstances(dom, KeyEmployeeTag), common)
  }

  /** Independent contractors are not extracted: always no rows. */
  function ExtractContractorData(dom: Node, common: Record): (r: seq<Record>)
    ensures |r| == 0
  {
    []
  }

  /** Nothing in the document's three employee groups aborts it. */
  ghost predicate StaffReadable(dom: Node) {
    && SectionAReadable(ExtractTagInstances(dom, SectionATag))
    && TrusteesReadable(ExtractTagInstances(dom, TrusteeTag))
    && KeyEmployeesReadable(ExtractTagInstances(dom, KeyEmployeeTag))
  }

  /** The staff rows of a document on top of its common columns: section A rows,
      then addressed trustee rows, then key-employee rows. */
  function StaffRows(dom: Node, common: Record): (r: Result<seq<Record>>)
    ensures r.Success? <==> StaffReadable(dom)
    ensures r.Success? ==>
              |r.value| == |ExtractTagInstances(dom, SectionATag)|
                           + CountWhere(ExtractTagInstances(dom, TrusteeTag), Addressed)
                           + |ExtractTagInstances(dom, KeyEmployeeTag)|
  {
    var sectionA :- ExtractEmployeeInfo1(dom, common);
    var trustees :- ExtractEmployeeInfo2(dom, common);
    var keyEmployees :- ExtractEmployeeInfo3(dom, common);
    Success(sectionA + trustees + keyEmployees)
  }

  /** All staff rows of a document; without its common columns there are none. */
  function ExtractPeopleData(dom: Node): (r: Result<seq<Record>>)
    ensures CommonData(dom).Failure? ==> r == Failure(CommonData(dom).error)
    ensures r.Success? <==> FilerReadable(dom) && StaffReadable(dom)
    ensures r.Success? ==> r == StaffRows(dom, CommonData(dom).value)
    ensures r.Success? ==>
              && CommonData(dom).Success?
              && |r.value| == |ExtractTagInstances(dom, SectionATag)|
                              + CountWhere(ExtractTagInstances(dom, TrusteeTag), Addressed)
                              + |ExtractTagInstances(dom, KeyEmployeeTag)|
  {
    var common :- CommonData(dom);
    StaffRows(dom, common)
  }

  lemma SectionAGrouped(items: seq<Located>, common: Record)
    requires SectionAReadable(items) && common.Keys !! StaffKeys
    ensures SectionARows(items, common).Success?
    ensures var rows := SectionARows(items, common).value;
            forall k | 0 <= k < |rows| :: GroupRow(rows[k], common, SectionATag)
  {
    var rows := SectionARows(items, common).value;
    forall k | 0 <= k < |rows|
      ensures GroupRow(rows[k], common, SectionATag)
    {
      StampedKeeps(rows[k], common, {EmployeeTypeKey, EmployeeNameKey, EmployeeTitleKey, CompensationKey});
    }
  }

  lemma TrusteesGrouped(items: seq<Located>, common: Record)
    requires TrusteesReadable(items) && common.Keys !! StaffKeys
    ensures TrusteeRows(items, common).Success?
    ensures var rows := TrusteeRows(items, common).value;
            forall k | 0 <= k < |rows| :: GroupRow(rows[k], common, TrusteeTag)
  {
    var rows := Expand(items, common, TrusteeRecord).value;
    forall k | 0 <= k < |rows|
      ensures GroupRow(rows[k], common, TrusteeTag)
    {
      var i :| 0 <= i < |items| && TrusteeRecord(common, items[i]) == Success(Some(rows[k]));
      assert TrusteeReadable(items[i].node);
      TrusteeRecordColumns(common, items[i]);
      StampedKeeps(rows[k], common, StaffKeys);
    }
  }

  lemma KeyEmployeesGrouped(items: seq<Located>, common: Record)
    requires KeyEmployeesReadable(items) && common.Keys !! StaffKeys
    ensures KeyEmployeeRows(items, common).Success?
    ensures var rows := KeyEmployeeRows(items, common).value;
            forall k | 0 <= k < |rows| :: GroupRow(rows[k], common, KeyEmployeeTag)
  {
    var rows := KeyEmployeeRows(items, common).value;
    forall k | 0 <= k < |rows|
      ensures GroupRow(rows[k], common, KeyEmployeeTag)
    {
      StampedKeeps(rows[k], common, {EmployeeTypeKey, EmployeeTitleKey, EmployeeAddressKey, CompensationKey});
    }
  }

  /** Three groups of rows, concatenated in order, keep `common` and come sorted by group. */
  lemma {:induction false} GroupsInOrder(a: seq<Record>, b: seq<Record>, c: seq<Record>, common: Record)
    requires forall k | 0 <= k < |a| :: GroupRow(a[k], common, SectionATag)
    requires forall k | 0 <= k < |b| :: GroupRow(b[k], common, TrusteeTag)
    requires forall k | 0 <= k < |c| :: GroupRow(c[k], common, KeyEmployeeTag)
    ensures var rows := a + b + c;
            && (forall k | 0 <= k < |rows| :: Keeps(rows[k], common))
            && (forall i, j | 0 <= i < j < |rows| :: TypeRank(rows[i]) <= TypeRank(rows[j]))
  {
    var rows := a + b + c;
    forall k | 0 <= k < |rows|
      ensures Keeps(rows[k], common)
      ensures TypeRank(rows[k]) == if k < |a| then 0 else if k < |a| + |b| then 1 else 2
    {
      if k < |a| {
        assert rows[k] == a[k];
      } else if k < |a| + |b| {
        assert rows[k] == b[k - |a|];
      } else {
        assert rows[k] == c[k - |a| - |b|];
      }
    }
  }

  /** Rows built on `common` carry it unchanged and come grouped: section A, then
      trustees, then key employees. */
  lemma StaffRowsShape(dom: Node, common: Record)
    requires StaffReadable(dom) && common.Keys !! StaffKeys
    ensures StaffRows(dom, common).Success?
    ensures var rows := StaffRows(dom, common).value;
            && (forall k | 0 <= k < |rows| :: Keeps(rows[k], common))
            && (forall i, j | 0 <= i < j < |rows| :: TypeRank(rows[i]) <= TypeRank(rows[j]))
  {
    var sa, tr, ke := ExtractTagInstances(dom, SectionATag), ExtractTagInstances(dom, TrusteeTag),
                      ExtractTagInstances(dom, KeyEmployeeTag);
    SectionAGrouped(sa, common);
    TrusteesGrouped(tr, common);
    KeyEmployeesGrouped(ke, common);
    GroupsInOrder(SectionARows(sa, common).value, TrusteeRows(tr, common).value, KeyEmployeeRows(ke, common).value, common);
  }

  /** Every staff row carries the document's common columns unchanged, and the
      rows come grouped: section A, then trustees, then key employees. */
  lemma PeopleDataShape(dom: Node)
    requires FilerReadable(dom) && StaffReadable(dom)
    ensures ExtractPeopleData(dom).Success?
    ensures var rows, common := ExtractPeopleData(dom).value, CommonData(dom).value;
            && (forall k | 0 <= k < |rows| :: Keeps(rows[k], common))
            && (forall i, j | 0 <= i < j < |rows| :: TypeRank(rows[i]) <= TypeRank(rows[j]))
  {
    StaffKeysApart();
    StaffRowsShape(dom, CommonData(dom).value);
  }

  /** Row `i` of `rows`, in a block that starts after `off` records, holds the
      columns of the addressed trustee instance that `idx` selects for it. */
  ghost predicate TrusteeRowFrom(rows: seq<Record>, items: seq<Located>, idx: seq<nat>, off: nat, common: Record, i: nat) {
    && off <= i < |rows| && i - off < |idx| && idx[i - off] < |items|
    && HasAddress(items[idx[i - off]].node)
    && TrusteeColumns(rows[i], common, items[idx[i - off]].node)
  }

  /** A readable document's staff rows are its three groups' rows, joined. */
  lemma StaffRowsJoined(dom: Node, common: Record)
    requires StaffReadable(dom)
    ensures var sa, tr, ke := ExtractTagInstances(dom, SectionATag), ExtractTagInstances(dom, TrusteeTag),
                              ExtractTagInstances(dom, KeyEmployeeTag);
            && SectionARows(sa, common).Success? && TrusteeRows(tr, common).Success?
            && KeyEmployeeRows(ke, common).Success?
            && StaffRows(dom, common)
               == Success(SectionARows(sa, common).value + TrusteeRows(tr, common).value + KeyEmployeeRows(ke, common).value)
  {
  }

  /** The first block of staff rows: one row per section A instance, in
      document order, each holding that instance's columns. */
  lemma SectionABlock(dom: Node, common: Record)
    requires StaffReadable(dom)
    ensures StaffRows(dom, common).Success?
    ensures var rows := StaffRows(dom, common).value;
            var sa := ExtractTagInstances(dom, SectionATag);
            && |sa| <= |rows|
            && forall k | 0 <= k < |sa| :: SectionAColumns(rows[k], common, sa[k].node)
  {
    var sa, tr, ke := ExtractTagInstances(dom, SectionATag), ExtractTagInstances(dom, TrusteeTag),
                      ExtractTagInstances(dom, KeyEmployeeTag);
    StaffRowsJoined(dom, common);
    FirstAt(StaffRows(dom, common).value, SectionARows(sa, common).value, TrusteeRows(tr, common).value, KeyEmployeeRows(ke, common).value,
            sa, (r, l: Located) => SectionAColumns(r, common, l.node));
  }

  /** The second block of staff rows: one row per addressed trustee instance,
      taken at increasing document positions, each holding that instance's columns. */
  lemma TrusteeBlock(dom: Node, common: Record)
    requires StaffReadable(dom)
    ensures StaffRows(dom, common).Success?
    ensures var rows := StaffRows(dom, common).value;
            var sa, tr := ExtractTagInstances(dom, SectionATag), ExtractTagInstances(dom, TrusteeTag);
            var idx := Origins(tr, common, TrusteeRecord);
            && |sa| + |idx| + |ExtractTagInstances(dom, KeyEmployeeTag)| == |rows|
            && (forall k, l | 0 <= k < l < |idx| :: idx[k] < idx[l])
            && forall i: nat | |sa| <= i < |sa| + |idx| :: TrusteeRowFrom(rows, tr, idx, |sa|, common, i)
  {
    var sa, tr, ke := ExtractTagInstances(dom, SectionATag), ExtractTagInstances(dom, TrusteeTag),
                      ExtractTagInstances(dom, KeyEmployeeTag);
    StaffRowsJoined(dom, common);
    var rows, a, c := StaffRows(dom, common).value, SectionARows(sa, common).value, KeyEmployeeRows(ke, common).value;
    var idx := Origins(tr, common, TrusteeRecord);
    ExpandOrigins(tr, common, TrusteeRecord);
    forall i: nat | |sa| <= i < |sa| + |idx|
      ensures TrusteeRowFrom(rows, tr, idx, |sa|, common, i)
    {
      var b := TrusteeRows(tr, common).value;
      var l := tr[idx[i - |sa|]];
      assert TrusteeRecord(common, l) == Success(Some(b[i - |sa|]));
      assert TrusteeReadable(l.node);
      TrusteeRecordColumns(common, l);
      MiddleAt(rows, a, b, c, |sa|, i);
    }
  }

  /** The last block of staff rows: one row per key-employee instance, in
      document order, each holding that instance's columns; nothing follows it. */
  lemma KeyEmployeeBlock(dom: Node, common: Record)
    requires StaffReadable(dom)
    ensures StaffRows(dom, common).Success?
    ensures var rows, ke := StaffRows(dom, common).value, ExtractTagInstances(dom, KeyEmployeeTag);
            && |ke| <= |rows|
            && forall i | |rows| - |ke| <= i < |rows| :: KeyEmployeeColumns(rows[i], common, ke[i - (|rows| - |ke|)].node)
  {
    var sa, tr, ke := ExtractTagInstances(dom, SectionATag), ExtractTagInstances(dom, TrusteeTag),
                      ExtractTagInstances(dom, KeyEmployeeTag);
    var rows := StaffRows(dom, common).value;
    StaffRowsJoined(dom, common);
    LastAt(rows, SectionARows(sa, common).value, TrusteeRows(tr, common).value, KeyEmployeeRows(ke, common).value,
           |rows| - |ke|, ke, (r, l: Located) => KeyEmployeeColumns(r, common, l.node));
  }
}

/** The staff run: every document is classified, then its staff rows are appended. */
module StaffMain {
  import opened Wrappers
  import opened Xml
  import opened Records
  import opened Header
  import opened Runs
  import opened Staff

  /** One document of the run: its EIN and return type must be readable, but do
      not otherwise influence its rows. */
  function StaffDocument(dom: Node): (r: Result<seq<Record>>)
    ensures Classify(dom).Failure? ==> r == Failure(Classify(dom).error)
    ensures Classify(dom).Success? ==> r == ExtractPeopleData(dom)
  {
    var classified :- Classify(dom);
    ExtractPeopleData(dom)
  }

  /** The staff run over a sequence of documents: each document's rows in turn;
      the first failing document aborts it. */
  method ParseStaff(docs: seq<Node>) returns (r: Result<seq<Record>>)
    ensures r.Success? <==> forall i | 0 <= i < |docs| :: StaffDocument(docs[i]).Success?
    ensures r.Success? ==> r.value == Joined(docs, StaffDocument) && |r.value| == RowCount(docs, StaffDocument)
    ensures r.Failure? ==>
              exists i | 0 <= i < |docs| ::
                StaffDocument(docs[i]) == Failure(r.error) && forall j | 0 <= j < i :: StaffDocument(docs[j]).Success?
  {
    r := RunAll(docs, StaffDocument);
    if r.Success? {
      JoinedLength(docs, StaffDocument);
    }
  }
}
