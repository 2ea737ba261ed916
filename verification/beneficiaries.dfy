/** The beneficiary listing: one row per grant or contribution paid during the
    year to a named organization with an address, each row carrying the filer's
    common columns and the total of the grant group it was listed in. */
module Beneficiaries {
  import opened Wrappers
  import opened Xml
  import opened Navigation
  import opened Records
  import opened Address
  import opened Groups
  import opened StaffColumns
  import opened Staff

  const GrantTag := "GrantOrContributionPdDurYrGrp"
  const BusinessTag := "RecipientBusinessName"
  const PersonTag := "RecipientPersonNm"
  const TotalTag := "TotalGrantOrContriPdDurYrAmt"

  const GranteeNameKey := "Grantee Name"
  const GranteeAddressKey := "Grantee Address"
  const StatusKey := "Foundation Status"
  const PurposeKey := "Purpose of Grant"
  const AmountKey := "Grant Amount"
  const TotalKey := "Total Amount"

  /** The columns of the grant itself and of its group's total. */
  const GrantKeys: set<string> := {StatusKey, PurposeKey, AmountKey, TotalKey}

  /** The columns written once the instance has an address. */
  const PaidKeys: set<string> := {GranteeAddressKey} + GrantKeys

  /** The columns a grantee row adds to the common ones. */
  const GranteeKeys: set<string> := {GranteeNameKey} + PaidKeys

  /** The grantee's name, under its business-name child. */
  const NameFields := [Read(GranteeNameKey, [BusinessTag], "BusinessNameLine1Txt", false)]

  /** The grant itself: the foundation status is optional, purpose and amount
      required. */
  const GrantFields := [Read(StatusKey, [], "RecipientFoundationStatusTxt", true),
                        Read(PurposeKey, [], "GrantOrContributionPurposeTxt", false),
                        Read(AmountKey, [], "Amt", false)]

  lemma GranteeTable()
    ensures DistinctKeys(NameFields) && KeysOf(NameFields) == {GranteeNameKey}
    ensures DistinctKeys(GrantFields) && KeysOf(GrantFields) == {StatusKey, PurposeKey, AmountKey}
    ensures TotalKey !in KeysOf(GrantFields) && KeysOf(GrantFields) + {TotalKey} == GrantKeys
    ensures GranteeAddressKey !in GrantKeys && GranteeNameKey !in PaidKeys
  {
    assert NameFields[0].key == GranteeNameKey;
    var s := GrantFields;
    assert s[0].key == StatusKey && s[1].key == PurposeKey && s[2].key == AmountKey;
  }

  lemma GranteeKeysApart()
    ensures CommonKeys !! GranteeKeys
  {
  }

  /** The name part can be read: the business name is not duplicated; without it
      the person's name, which is read all the same, is readable; with it its first
      line is. */
  ghost predicate NameReadable(e: Node) {
    && ChildCount(e, BusinessTag) <= 1
    && (ChildCount(e, BusinessTag) == 0 ==> OptionallyReadable(e, PersonTag))
    && (ChildCount(e, BusinessTag) == 1 ==> AllReadable(Some(e), NameFields))
  }

  /** The grant part can be read: the address choice is unambiguous, and with an
      address, it renders, the grant's fields are readable and the group's total is. */
  ghost predicate GrantReadable(l: Located) {
    && AddressUnambiguous(l.node)
    && (HasAddress(l.node) ==>
          && FormatAddress(ChosenAddress(l.node).value).Success?
          && AllReadable(Some(l.node), GrantFields)
          && Readable(l.parent, TotalTag))
  }

  /** Nothing in the instance aborts the document. */
  ghost predicate GranteeReadable(l: Located) {
    NameReadable(l.node) && (ChildCount(l.node, BusinessTag) == 1 ==> GrantReadable(l))
  }

  /** The instance names an organization and has an address, so it yields a row
      when readable. */
  predicate Listed(l: Located) {
    ChildCount(l.node, BusinessTag) == 1 && HasAddress(l.node)
  }

  /** The grant part of a row: the rendering of the chosen address, the grant's
      fields, and the total of the enclosing group. */
  ghost predicate GrantColumns(r: Record, l: Located) {
    && ChosenAddress(l.node).Some?
    && FormatAddress(ChosenAddress(l.node).value).Success?
    && GranteeAddressKey in r && r[GranteeAddressKey] == Str(FormatAddress(ChosenAddress(l.node).value).value)
    && AllRead(r, Some(l.node), GrantFields)
    && Readable(l.parent, TotalTag)
    && TotalKey in r && r[TotalKey] == Field(RequiredText(l.parent, TotalTag))
  }

  /** A grantee row: the common columns, the name, and the grant part. */
  ghost predicate GranteeColumns(r: Record, common: Record, l: Located) {
    && Stamped(r, common, GranteeKeys)
    && AllRead(r, Some(l.node), NameFields)
    && GrantColumns(r, l)
  }

  /** The name read into a copy of `common`; absent without a business name, in
      which case the person's name is read and dropped. */
  function GranteeNamed(common: Record, e: Node): (r: Result<Option<Record>>)
    ensures r.Success? <==> NameReadable(e)
    ensures r.Success? ==> (r.value.None? <==> ChildCount(e, BusinessTag) == 0)
    ensures r.Success? && r.value.Some? ==>
              Stamped(r.value.value, common, {GranteeNameKey}) && AllRead(r.value.value, Some(e), NameFields)
  {
    var name :- ExtractSingleTag(e, BusinessTag, true);
    if name.None? then
      var person :- ExtractSingleTagValue(e, PersonTag, true);
      Success(None)
    else
      GranteeTable();
      var r :- ReadInto(common, e, NameFields);
      Success(Some(r))
  }

  /** The grant's fields and the group's total, written over an addressed row. */
  function GrantInto(addressed: Record, l: Located): (r: Result<Record>)
    ensures r.Success? <==> AllReadable(Some(l.node), GrantFields) && Readable(l.parent, TotalTag)
    ensures r.Success? ==>
              && Stamped(r.value, addressed, GrantKeys)
              && AllRead(r.value, Some(l.node), GrantFields)
              && TotalKey in r.value && r.value[TotalKey] == Field(RequiredText(l.parent, TotalTag))
  {
    GranteeTable();
    var filled :- ReadInto(addressed, l.node, GrantFields);
    var total :- ExtractSingleTagValue(l.parent, TotalTag, false);
    var r := filled[TotalKey := Field(total)];
    AllReadKept(r, filled, {TotalKey}, Some(l.node), GrantFields);
    StampedTwice(r, filled, addressed, KeysOf(GrantFields), {TotalKey});
    Success(r)
  }

  /** The address, grant and total written into a named row; absent without an
      address, which skips the instance. */
  function GranteePaid(named: Record, l: Located): (r: Result<Option<Record>>)
    ensures r.Success? <==> GrantReadable(l)
    ensures r.Success? ==> (r.value.Some? <==> HasAddress(l.node))
    ensures r.Success? && r.value.Some? ==> Stamped(r.value.value, named, PaidKeys)
    ensures r.Success? && r.value.Some? ==> GrantColumns(r.value.value, l)
  {
    var address :- RecipientAddressText(l.node);
    if address.None? then Success(None)
    else
      var addressed := named[GranteeAddressKey := Str(address.value)];
      var r :- GrantInto(addressed, l);
      GranteeTable();
      StampedTwice(r, addressed, named, {GranteeAddressKey}, GrantKeys);
      Success(Some(r))
  }

  /** One grant instance. A missing or unreadable required field aborts the
      document; an instance without a business name or without an address is
      skipped. An instance naming only a person is skipped whenever the person's
      name can be read. */
  function GranteeRecord(common: Record, l: Located): (r: Result<Option<Record>>)
    ensures r.Success? <==> GranteeReadable(l)
    ensures r.Success? ==> (r.value.Some? <==> Listed(l))
    ensures ChildCount(l.node, BusinessTag) == 0 ==>
              (r.Success? <==> OptionallyReadable(l.node, PersonTag)) && (r.Success? ==> r.value.None?)
  {
    var named :- GranteeNamed(common, l.node);
    if named.None? then Success(None) else GranteePaid(named.value, l)
  }

  /** Name, then address, grant and total: a complete grantee row. */
  lemma GranteeFinished(common: Record, l: Located, named: Record, paid: Record)
    requires Stamped(named, common, {GranteeNameKey}) && AllRead(named, Some(l.node), NameFields)
    requires Stamped(paid, named, PaidKeys) && GrantColumns(paid, l)
    ensures GranteeColumns(paid, common, l)
  {
    GranteeTable();
    AllReadKept(paid, named, PaidKeys, Some(l.node), NameFields);
    StampedTwice(paid, named, common, {GranteeNameKey}, PaidKeys);
  }

  /** A readable, listed grant instance yields a row, and that row holds the
      instance's columns. */
  lemma GranteeRecordColumns(common: Record, l: Located)
    requires GranteeReadable(l) && Listed(l)
    ensures GranteeRecord(common, l).Success? && GranteeRecord(common, l).value.Some?
    ensures GranteeColumns(GranteeRecord(common, l).value.value, common, l)
  {
    var named := GranteeNamed(common, l.node).value.value;
    GranteeFinished(common, l, named, GranteePaid(named, l).value.value);
  }

  /** No grant instance aborts the document. */
  ghost predicate GranteesReadable(items: seq<Located>) {
    forall i | 0 <= i < |items| :: GranteeReadable(items[i])
  }

  /** The grantee loop: one row per listed instance, in instance order. */
  function GranteeRows(items: seq<Located>, common: Record): (r: Result<seq<Record>>)
    ensures r.Success? <==> GranteesReadable(items)
    ensures r.Success? ==> |r.value| == CountWhere(items, Listed) <= |items|
  {
    var r := Expand(items, common, GranteeRecord);
    if r.Success? then KeptCountWhere(items, common, GranteeRecord, Listed); r else r
  }

  /** One row per listed grant instance anywhere in the document, in document order. */
  function ExtractGranteesInfo(dom: Node, common: Record): (r: Result<seq<Record>>)
    ensures r.Success? <==> GranteesReadable(ExtractTagInstances(dom, GrantTag))
    ensures r.Success? ==> |r.value| == CountWhere(ExtractTagInstances(dom, GrantTag), Listed)
  {
    GranteeRows(ExtractTagInstances(dom, GrantTag), common)
  }

  /** Row `k` comes from the listed instance at position `Origins[k]`, those
      positions increase, and each row holds what that instance gives. */
  lemma GranteeRowsColumns(items: seq<Located>, common: Record)
    requires GranteesReadable(items)
    ensures GranteeRows(items, common).Success?
    ensures var rows, idx := GranteeRows(items, common).value, Origins(items, common, GranteeRecord);
            && Selects(items, common, GranteeRecord, idx, rows)
            && forall k | 0 <= k < |rows| :: Listed(items[idx[k]]) && GranteeColumns(rows[k], common, items[idx[k]])
  {
    var rows, idx := Expand(items, common, GranteeRecord).value, Origins(items, common, GranteeRecord);
    ExpandOrigins(items, common, GranteeRecord);
    forall k | 0 <= k < |rows|
      ensures Listed(items[idx[k]]) && GranteeColumns(rows[k], common, items[idx[k]])
    {
      assert GranteeRecord(common, items[idx[k]]) == Success(Some(rows[k]));
      assert GranteeReadable(items[idx[k]]);
      GranteeRecordColumns(common, items[idx[k]]);
    }
  }

  /** Two readable, listed instances of the same grant group carry the same total. */
  lemma SharedTotal(common: Record, x: Located, y: Located)
    requires GranteeReadable(x) && Listed(x) && GranteeReadable(y) && Listed(y)
    requires x.parent == y.parent
    ensures GranteeRecord(common, x).Success? && GranteeRecord(common, x).value.Some?
    ensures GranteeRecord(common, y).Success? && GranteeRecord(common, y).value.Some?
    ensures var a, b := GranteeRecord(common, x).value.value, GranteeRecord(common, y).value.value;
            TotalKey in a && TotalKey in b && a[TotalKey] == b[TotalKey]
  {
    GranteeRecordColumns(common, x);
    GranteeRecordColumns(common, y);
  }

  /** Every grantee row carries the common columns unchanged. */
  lemma GranteesKeepCommon(items: seq<Located>, common: Record)
    requires GranteesReadable(items) && common.Keys !! GranteeKeys
    ensures GranteeRows(items, common).Success?
    ensures var rows := GranteeRows(items, common).value;
            forall k | 0 <= k < |rows| :: Keeps(rows[k], common)
  {
    var rows := GranteeRows(items, common).value;
    GranteeRowsColumns(items, common);
    forall k | 0 <= k < |rows|
      ensures Keeps(rows[k], common)
    {
      StampedKeeps(rows[k], common, GranteeKeys);
    }
  }

  /** All grantee rows of a document; without its common columns there are none. */
  function ExtractBeneficiaryData(dom: Node): (r: Result<seq<Record>>)
    ensures CommonData(dom).Failure? ==> r == Failure(CommonData(dom).error)
    ensures r.Success? <==> FilerReadable(dom) && GranteesReadable(ExtractTagInstances(dom, GrantTag))
    ensures r.Success? ==>
              && CommonData(dom).Success?
              && |r.value| == CountWhere(ExtractTagInstances(dom, GrantTag), Listed)
  {
    var common :- CommonData(dom);
    ExtractGranteesInfo(dom, common)
  }

  /** Every beneficiary row carries the document's common columns unchanged. */
  lemma BeneficiaryDataKeepsCommon(dom: Node)
    requires FilerReadable(dom) && GranteesReadable(ExtractTagInstances(dom, GrantTag))
    ensures ExtractBeneficiaryData(dom).Success?
    ensures var rows, common := ExtractBeneficiaryData(dom).value, CommonData(dom).value;
            forall k | 0 <= k < |rows| :: Keeps(rows[k], common)
  {
    GranteeKeysApart();
    GranteesKeepCommon(ExtractTagInstances(dom, GrantTag), CommonData(dom).value);
  }
}
