/** The columns of the staff listing: what each row holds and which reads fill
    it, by employee group. The extraction itself is in module Staff. */
module StaffColumns {
  import opened Wrappers
  import opened Xml
  import opened Navigation
  import opened Records
  import opened Header
  import opened Address
  import opened Filer

  const BusinessNameKey := "Name of organization"

  /** The columns every staff (and beneficiary) row starts with. */
  const CommonKeys: set<string> :=
    {FilingYearKey, TypeKey, EinKey, BusinessNameKey, CityKey, ZipKey, StateKey, Address1Key, CountryKey}

  /** The text reads of the common columns, under the return header, in the order
      they are made. */
  const CommonReads := [TypeRead, EinRead, NameRead(BusinessNameKey), CityRead, ZipRead, StateRead, Address1Read]

  lemma CommonTable()
    ensures DistinctKeys(CommonReads) && FilingYearKey !in KeysOf(CommonReads) && CountryKey !in KeysOf(CommonReads)
    ensures KeysOf(CommonReads) == {TypeKey, EinKey, BusinessNameKey, CityKey, ZipKey, StateKey, Address1Key}
  {
    var s := CommonReads;
    assert s[0].key == TypeKey && s[1].key == EinKey && s[2].key == BusinessNameKey && s[3].key == CityKey;
    assert s[4].key == ZipKey && s[5].key == StateKey && s[6].key == Address1Key;
  }

  /** The header and filer children the common columns come from, all required. */
  ghost predicate FilerReadable(dom: Node) {
    && FilerNode(dom).Some?
    && YearReadable(HeaderNode(dom).value)
    && AllReadable(HeaderNode(dom), CommonReads)
  }

  /** The common columns of a document: each holds the text it is named for, the
      filing year is the year of the tax period, and the country is always "US". */
  ghost predicate CommonColumns(r: Record, dom: Node) {
    && r.Keys == CommonKeys
    && YearRead(r, HeaderNode(dom))
    && AllRead(r, HeaderNode(dom), CommonReads)
    && r[CountryKey] == Str("US")
  }

  const EmployeeTypeKey := "Employee Type"
  const EmployeeNameKey := "Employee Name"
  const EmployeeTitleKey := "Employee Title"
  const EmployeeAddressKey := "Employee Address"
  const CompensationKey := "Employee Compensation"

  /** The columns a staff row adds to the common ones. */
  const StaffKeys := {EmployeeTypeKey, EmployeeNameKey, EmployeeTitleKey, EmployeeAddressKey, CompensationKey}

  lemma StaffKeysApart()
    ensures CommonKeys !! StaffKeys
  {
  }

  // The three employee groups, in the order their rows are emitted.
  const SectionATag := "Form990PartVIISectionAGrp"
  const TrusteeTag := "OfficerDirectorTrusteeEmplGrp"
  const KeyEmployeeTag := "OfficerDirTrstKeyEmplInfoGrp"

  /** A Part VII section A person: name optional, title and reportable
      compensation required. */
  const SectionAFields := [Read(EmployeeNameKey, [], "PersonNm", true), Read(EmployeeTitleKey, [], "TitleTxt", false),
                           Read(CompensationKey, [], "ReportableCompFromOrgAmt", false)]

  lemma SectionATable()
    ensures DistinctKeys(SectionAFields) && EmployeeTypeKey !in KeysOf(SectionAFields)
    ensures KeysOf(SectionAFields) == {EmployeeNameKey, EmployeeTitleKey, CompensationKey}
  {
    var s := SectionAFields;
    assert s[0].key == EmployeeNameKey && s[1].key == EmployeeTitleKey && s[2].key == CompensationKey;
  }

  /** A section A row: the common columns, the group, and the instance's table. */
  ghost predicate SectionAColumns(r: Record, common: Record, e: Node) {
    && Stamped(r, common, {EmployeeTypeKey, EmployeeNameKey, EmployeeTitleKey, CompensationKey})
    && r[EmployeeTypeKey] == Str(SectionATag)
    && AllRead(r, Some(e), SectionAFields)
  }

  /** An officer, director or trustee: name and title, both required, are read
      before the address is looked at. */
  const TrusteeFields := [Read(EmployeeNameKey, [], "PersonNm", false), Read(EmployeeTitleKey, [], "TitleTxt", false)]

  /** With an address, the compensation is read after it, and is required. */
  const TrusteePayFields := [Read(CompensationKey, [], "CompensationAmt", false)]

  lemma TrusteeTable()
    ensures DistinctKeys(TrusteeFields) && EmployeeTypeKey !in KeysOf(TrusteeFields)
    ensures KeysOf(TrusteeFields) == {EmployeeNameKey, EmployeeTitleKey}
    ensures DistinctKeys(TrusteePayFields) && KeysOf(TrusteePayFields) == {CompensationKey}
  {
    var s := TrusteeFields;
    assert s[0].key == EmployeeNameKey && s[1].key == EmployeeTitleKey;
    assert TrusteePayFields[0].key == CompensationKey;
  }

  /** The address choice is unambiguous, and with an address, the address
      renders and the compensation is readable. */
  ghost predicate PayReadable(e: Node) {
    && AddressUnambiguous(e)
    && (HasAddress(e) ==> FormatAddress(ChosenAddress(e).value).Success? && AllReadable(Some(e), TrusteePayFields))
  }

  /** Name and title readable, then the address and compensation. */
  ghost predicate TrusteeReadable(e: Node) {
    AllReadable(Some(e), TrusteeFields) && PayReadable(e)
  }

  /** The rendering of the instance's chosen address, and its compensation. */
  ghost predicate PayColumns(r: Record, e: Node) {
    && ChosenAddress(e).Some?
    && FormatAddress(ChosenAddress(e).value).Success?
    && EmployeeAddressKey in r && r[EmployeeAddressKey] == Str(FormatAddress(ChosenAddress(e).value).value)
    && AllRead(r, Some(e), TrusteePayFields)
  }

  /** A trustee row: the common columns, the group, name and title read under the
      instance, then its address and compensation. */
  ghost predicate TrusteeColumns(r: Record, common: Record, e: Node) {
    && Stamped(r, common, StaffKeys)
    && r[EmployeeTypeKey] == Str(TrusteeTag)
    && AllRead(r, Some(e), TrusteeFields)
    && PayColumns(r, e)
  }

  /** The instance has an address, so it yields a row when readable. */
  predicate Addressed(l: Located) {
    HasAddress(l.node)
  }

  /** A private foundation's key employee: title, address line and compensation,
      all optional; there is no name column. */
  const KeyEmployeeFields := [Read(EmployeeTitleKey, [], "TitleTxt", true), Read(EmployeeAddressKey, [], "AddressLine1Txt", true),
                              Read(CompensationKey, [], "CompensationAmt", true)]

  lemma KeyEmployeeTable()
    ensures DistinctKeys(KeyEmployeeFields) && EmployeeTypeKey !in KeysOf(KeyEmployeeFields)
    ensures KeysOf(KeyEmployeeFields) == {EmployeeTitleKey, EmployeeAddressKey, CompensationKey}
  {
    var s := KeyEmployeeFields;
    assert s[0].key == EmployeeTitleKey && s[1].key == EmployeeAddressKey && s[2].key == CompensationKey;
  }

  ghost predicate KeyEmployeeColumns(r: Record, common: Record, e: Node) {
    && Stamped(r, common, {EmployeeTypeKey, EmployeeTitleKey, EmployeeAddressKey, CompensationKey})
    && r[EmployeeTypeKey] == Str(KeyEmployeeTag)
    && AllRead(r, Some(e), KeyEmployeeFields)
  }

  /** Position of a row's group in the output: section A, then trustees, then key employees. */
  function TypeRank(r: Record): nat {
    if EmployeeTypeKey in r && r[EmployeeTypeKey] == Str(SectionATag) then 0
    else if EmployeeTypeKey in r && r[EmployeeTypeKey] == Str(TrusteeTag) then 1
    else 2
  }

  /** A row of group `tag` built on `common`: the common columns unchanged, and
      the group marked in the type column. */
  ghost predicate GroupRow(r: Record, common: Record, tag: string) {
    Keeps(r, common) && EmployeeTypeKey in r && r[EmployeeTypeKey] == Str(tag)
  }
}
