/** The accountant listing: at most one row per return, naming the firm that
    prepared it and, on Form 990-PF, where the books are kept. A return without
    a preparer firm (or, on 990-PF, without a books custodian) yields no row. */
module Accountants {
  import opened Wrappers
  import opened Xml
  import opened Navigation
  import opened Records
  import opened Header
  import opened Filer

  const BusinessNameKey := "Name of organization"

  /** The filer columns every accountant row starts with. */
  const CommonKeys: set<string> :=
    {FilingYearKey, TypeKey, EinKey, PhoneKey, BusinessNameKey, CityKey, ZipKey, StateKey, CountryKey, Address1Key}

  /** The filer's text reads under the return header, in the order they are made. */
  const FilerReads := [TypeRead, EinRead, PhoneRead, NameRead(BusinessNameKey), CityRead, ZipRead, StateRead,
                       Address1Read]

  lemma FilerTable()
    ensures DistinctKeys(FilerReads) && FilingYearKey !in KeysOf(FilerReads) && CountryKey !in KeysOf(FilerReads)
    ensures KeysOf(FilerReads) + {FilingYearKey, CountryKey} == CommonKeys
  {
    var s := FilerReads;
    assert s[0].key == TypeKey && s[1].key == EinKey && s[2].key == PhoneKey && s[3].key == BusinessNameKey;
    assert s[4].key == CityKey && s[5].key == ZipKey && s[6].key == StateKey && s[7].key == Address1Key;
  }

  // The preparer firm, under the return header.

  const FirmTag := "PreparerFirmGrp"
  const FirmNameTag := "PreparerFirmName"
  const FirmAddressTag := "PreparerUSAddress"

  const FirmEinKey := "Firm EIN"
  const FirmNameKey := "Firm name/Preparer name"
  const FirmAddressKey := "Firm Address"
  const FirmCityKey := "Firm City"
  const FirmStateKey := "Firm Country/State"
  const FirmZipKey := "Firm Zip Code"

  const FirmKeys: set<string> := {FirmEinKey, FirmNameKey, FirmAddressKey, FirmCityKey, FirmStateKey, FirmZipKey}

  /** The firm's reads under its group: the EIN is optional, the name and the four
      address parts required. */
  const FirmReads := [Read(FirmEinKey, [], "PreparerFirmEIN", true),
                      Read(FirmNameKey, [FirmNameTag], "BusinessNameLine1Txt", false),
                      Read(FirmAddressKey, [FirmAddressTag], "AddressLine1Txt", false),
                      Read(FirmCityKey, [FirmAddressTag], "CityNm", false),
                      Read(FirmStateKey, [FirmAddressTag], "StateAbbreviationCd", false),
                      Read(FirmZipKey, [FirmAddressTag], "ZIPCd", false)]

  lemma FirmKeysApart()
    ensures FirmKeys !! CommonKeys
  {
  }

  lemma FirmTable()
    ensures DistinctKeys(FirmReads) && KeysOf(FirmReads) == FirmKeys && FirmKeys !! CommonKeys
  {
    FirmKeysApart();
    var s := FirmReads;
    assert s[0].key == FirmEinKey && s[1].key == FirmNameKey && s[2].key == FirmAddressKey;
    assert s[3].key == FirmCityKey && s[4].key == FirmStateKey && s[5].key == FirmZipKey;
  }

  /** The filer's columns under `header`: the filing year, the reads, and the
      constant country. */
  ghost predicate FilerHeld(r: Record, header: Node) {
    && YearRead(r, Some(header))
    && AllRead(r, Some(header), FilerReads)
    && CountryKey in r && r[CountryKey] == Str("US")
  }

  /** The header has no preparer firm group. */
  ghost predicate NoFirm(dom: Node) {
    HeaderNode(dom).Some? && ChildCount(HeaderNode(dom).value, FirmTag) == 0
  }

  /** A firm group with its name and address children unique and its reads all
      succeeding. */
  ghost predicate FirmGroupReadable(firm: Node) {
    && ChildCount(firm, FirmNameTag) == 1
    && ChildCount(firm, FirmAddressTag) == 1
    && AllReadable(Some(firm), FirmReads)
  }

  /** The firm group under `header`, present once and readable. */
  ghost predicate FirmReadable(header: Node) {
    Under(Some(header), FirmTag).Some? && FirmGroupReadable(Under(Some(header), FirmTag).value)
  }

  /** The filer columns can be read, and the firm is absent or readable. */
  ghost predicate CommonReadable(dom: Node) {
    && HeaderNode(dom).Some?
    && YearReadable(HeaderNode(dom).value)
    && AllReadable(HeaderNode(dom), FilerReads)
    && (NoFirm(dom) || FirmReadable(HeaderNode(dom).value))
  }

  /** The common row under `header`: the filer's columns and the firm's. */
  ghost predicate HeaderColumns(r: Record, header: Node) {
    && r.Keys == CommonKeys + FirmKeys
    && FilerHeld(r, header)
    && AllRead(r, Under(Some(header), FirmTag), FirmReads)
  }

  /** The common row of a document. */
  ghost predicate CommonColumns(r: Record, dom: Node) {
    HeaderNode(dom).Some? && HeaderColumns(r, HeaderNode(dom).value)
  }

  /** The firm's columns, read from its group and written over the filer's. The
      name and address children are looked up before anything of the firm is
      read. */
  function FirmGroupInto(filer: Record, firm: Node): (r: Result<Record>)
    ensures r.Success? <==> FirmGroupReadable(firm)
    ensures r.Success? ==> Stamped(r.value, filer, FirmKeys) && AllRead(r.value, Some(firm), FirmReads)
  {
    var name :- SingleChild(firm, FirmNameTag);
    var address :- SingleChild(firm, FirmAddressTag);
    FirmTable();
    ReadInto(filer, firm, FirmReads)
  }

  /** The firm's columns over the filer's; none without a firm group. */
  function FirmInto(filer: Record, header: Node): (r: Result<Option<Record>>)
    requires filer.Keys == CommonKeys && FilerHeld(filer, header)
    ensures r.Success? <==> ChildCount(header, FirmTag) == 0 || FirmReadable(header)
    ensures r.Success? ==> (r.value.None? <==> ChildCount(header, FirmTag) == 0)
    ensures r.Success? && r.value.Some? ==> HeaderColumns(r.value.value, header)
  {
    var firm :- ExtractSingleTag(header, FirmTag, true);
    if firm.None? then Success(None)
    else
      var r :- FirmGroupInto(filer, firm.value);
      FirmKept(r, filer, header);
      Success(Some(r))
  }

  /** Writing the firm's columns keeps the filer's. */
  lemma FirmKept(r: Record, filer: Record, header: Node)
    requires filer.Keys == CommonKeys && FilerHeld(filer, header)
    requires Stamped(r, filer, FirmKeys) && AllRead(r, Under(Some(header), FirmTag), FirmReads)
    ensures HeaderColumns(r, header)
  {
    FilerTable();
    FirmTable();
    YearKept(r, filer, FirmKeys, Some(header));
    AllReadKept(r, filer, FirmKeys, Some(header), FilerReads);
  }

  /** The common data of a return: `None` exactly when the header has no preparer
      firm group, a check made only after every filer column has been read. */
  function CommonData(dom: Node): (r: Result<Option<Record>>)
    ensures r.Success? <==> CommonReadable(dom)
    ensures r.Success? ==> (r.value.None? <==> NoFirm(dom))
    ensures r.Success? && r.value.Some? ==> CommonColumns(r.value.value, dom)
  {
    var header :- ExtractHeader(dom);
    FilerTable();
    var filer :- HeaderInto(header, FilerReads);
    FirmInto(filer, header)
  }

  /** Forms 990 and 990-EZ, whose extractors are the same: the common data as it
      is, so no row without a preparer firm. */
  function ExtractData990(dom: Node): (r: Result<Option<Record>>)
    ensures r.Success? <==> CommonReadable(dom)
    ensures r.Success? ==> (r.value.None? <==> NoFirm(dom))
    ensures r.Success? && r.value.Some? ==> CommonColumns(r.value.value, dom)
  {
    CommonData(dom)
  }

  // Where a private foundation's books are kept, under its form body.

  const BooksTag := "PersonsWithBooksName"
  const LocationTag := "LocationOfBooksUSAddress"

  const BooksNameKey := "the books are in care of: Name"
  const BooksPhoneKey := "the books are in care of: Telephone"
  const BooksAddressKey := "the books are in care of: Address"
  const BooksZipKey := "the books are in care of: Zip Code"

  const BooksKeys: set<string> := {BooksNameKey, BooksPhoneKey, BooksAddressKey, BooksZipKey}

  /** All four required; the telephone number is the form body's own child. */
  const BooksReads := [Read(BooksNameKey, [BooksTag], "BusinessNameLine1Txt", false),
                       Read(BooksPhoneKey, [], "PhoneNum", false),
                       Read(BooksAddressKey, [LocationTag], "AddressLine1Txt", false),
                       Read(BooksZipKey, [LocationTag], "ZIPCd", false)]

  lemma BooksKeysApart()
    ensures BooksKeys !! CommonKeys + FirmKeys
  {
  }

  lemma BooksTable()
    ensures DistinctKeys(BooksReads) && KeysOf(BooksReads) == BooksKeys && BooksKeys !! CommonKeys + FirmKeys
  {
    BooksKeysApart();
    var s := BooksReads;
    assert s[0].key == BooksNameKey && s[1].key == BooksPhoneKey && s[2].key == BooksAddressKey;
    assert s[3].key == BooksZipKey;
  }

  /** The books custodian is named in the 990-PF body and the location given once,
      and the four reads succeed. */
  ghost predicate BooksReadable(body: Node) {
    && ChildCount(body, BooksTag) == 1
    && ChildCount(body, LocationTag) == 1
    && AllReadable(Some(body), BooksReads)
  }

  /** The books columns written over `base`; none without a books custodian. */
  function BooksInto(base: Record, body: Node): (r: Result<Option<Record>>)
    ensures r.Success? <==> ChildCount(body, BooksTag) == 0 || BooksReadable(body)
    ensures r.Success? ==> (r.value.None? <==> ChildCount(body, BooksTag) == 0)
    ensures r.Success? && r.value.Some? ==>
              Stamped(r.value.value, base, BooksKeys) && AllRead(r.value.value, Some(body), BooksReads)
  {
    var books :- ExtractSingleTag(body, BooksTag, true);
    if books.None? then Success(None)
    else
      var location :- SingleChild(body, LocationTag);
      BooksTable();
      var r :- ReadInto(base, body, BooksReads);
      Success(Some(r))
  }

  /** A 990-PF row: the common row with the books columns. */
  ghost predicate BooksColumns(r: Record, dom: Node) {
    && r.Keys == CommonKeys + FirmKeys + BooksKeys
    && HeaderNode(dom).Some?
    && FilerHeld(r, HeaderNode(dom).value)
    && AllRead(r, Under(HeaderNode(dom), FirmTag), FirmReads)
    && AllRead(r, FormNode(dom, "IRS990PF"), BooksReads)
  }

  /** Form 990-PF. Without a books custodian there is no row, whatever the
      common data was; with one but without a preparer firm the books columns
      are written into an absent record, which aborts the document. */
  function ExtractData990PF(dom: Node): (r: Result<Option<Record>>)
    ensures CommonData(dom).Failure? ==> r == Failure(CommonData(dom).error)
    ensures r.Success? <==> && CommonReadable(dom) && FormNode(dom, "IRS990PF").Some?
                            && var body := FormNode(dom, "IRS990PF").value;
                               ChildCount(body, BooksTag) == 0 || (BooksReadable(body) && !NoFirm(dom))
    ensures r.Success? ==> && CommonData(dom).Success?
                           && FormNode(dom, "IRS990PF").Some?
                           && (r.value.None? <==> ChildCount(FormNode(dom, "IRS990PF").value, BooksTag) == 0)
    ensures r.Success? && r.value.Some? ==> CommonData(dom).value.Some? && BooksColumns(r.value.value, dom)
    ensures && CommonData(dom) == Success(None)
            && FormNode(dom, "IRS990PF").Some? && BooksReadable(FormNode(dom, "IRS990PF").value)
            ==> r == Failure(NoRecord)
  {
    var common :- CommonData(dom);
    var body :- FormElement(dom, "IRS990PF");
    var books :- BooksInto(if common.Some? then common.value else map[], body);
    if books.None? then Success(None)
    else if common.None? then Failure(NoRecord)
    else BooksKept(books.value, common.value, dom); Success(books)
  }

  /** Writing the books columns keeps the common row. */
  lemma BooksKept(r: Record, common: Record, dom: Node)
    requires CommonColumns(common, dom) && FormNode(dom, "IRS990PF").Some?
    requires Stamped(r, common, BooksKeys) && AllRead(r, FormNode(dom, "IRS990PF"), BooksReads)
    ensures BooksColumns(r, dom)
  {
    BooksTable();
    FilerTable();
    FirmTable();
    YearKept(r, common, BooksKeys, HeaderNode(dom));
    AllReadKept(r, common, BooksKeys, HeaderNode(dom), FilerReads);
    AllReadKept(r, common, BooksKeys, Under(HeaderNode(dom), FirmTag), FirmReads);
  }
}
