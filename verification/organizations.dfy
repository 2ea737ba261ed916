/** The organization listing: one row per return, holding the filer's columns
    and the handful of figures of its own form variant. */
module Organizations {
  import opened Wrappers
  import opened Xml
  import opened Navigation
  import opened Records
  import opened Header
  import opened Filer

  const BusinessNameKey := "Business Name"
  const Address2Key := "Address 2"
  const OfficerNameKey := "Signing officer name"
  const OfficerTitleKey := "Signing officer title"

  /** The columns every organization row starts with. */
  const CommonKeys: set<string> :=
    {FilingYearKey, TypeKey, EinKey, PhoneKey, BusinessNameKey, CityKey, ZipKey, StateKey, CountryKey,
     Address1Key, Address2Key, OfficerNameKey, OfficerTitleKey}

  /** The text reads of the common columns under the return header, in the order
      they are made: the second address line and the telephone number are optional,
      the signing officer's group is required. */
  const CommonReads := [TypeRead, EinRead, PhoneRead, NameRead(BusinessNameKey), CityRead, ZipRead, StateRead,
                        Address1Read, PlaceRead(Address2Key, "AddressLine2Txt", true),
                        Read(OfficerNameKey, ["BusinessOfficerGrp"], "PersonNm", false),
                        Read(OfficerTitleKey, ["BusinessOfficerGrp"], "PersonTitleTxt", false)]

  lemma CommonTable()
    ensures DistinctKeys(CommonReads) && FilingYearKey !in KeysOf(CommonReads) && CountryKey !in KeysOf(CommonReads)
    ensures KeysOf(CommonReads) + {FilingYearKey, CountryKey} == CommonKeys
  {
    var s := CommonReads;
    assert s[0].key == TypeKey && s[1].key == EinKey && s[2].key == PhoneKey && s[3].key == BusinessNameKey;
    assert s[4].key == CityKey && s[5].key == ZipKey && s[6].key == StateKey && s[7].key == Address1Key;
    assert s[8].key == Address2Key && s[9].key == OfficerNameKey && s[10].key == OfficerTitleKey;
  }

  /** The header children the common columns come from. */
  ghost predicate CommonReadable(dom: Node) {
    && HeaderNode(dom).Some?
    && YearReadable(HeaderNode(dom).value)
    && AllReadable(HeaderNode(dom), CommonReads)
  }

  /** Each common column holds the text it is named for, the filing year is the
      year of the tax period, and the country is always "US". */
  ghost predicate CommonHeld(r: Record, dom: Node) {
    && YearRead(r, HeaderNode(dom))
    && AllRead(r, HeaderNode(dom), CommonReads)
    && CountryKey in r && r[CountryKey] == Str("US")
  }

  /** The common part of a row and nothing else. */
  ghost predicate CommonColumns(r: Record, dom: Node) {
    r.Keys == CommonKeys && CommonHeld(r, dom)
  }

  /** The filer's columns; any missing or unreadable part aborts the document. */
  function CommonData(dom: Node): (r: Result<Record>)
    ensures r.Success? <==> CommonReadable(dom)
    ensures r.Success? ==> CommonColumns(r.value, dom)
  {
    var header :- ExtractHeader(dom);
    CommonTable();
    HeaderInto(header, CommonReads)
  }

  // The figures of each variant, read under its form body.

  const MissionKey := "Mission/primary purpose"
  const RevenueKey := "Total revenue"
  const ExpensesKey := "Total expenses"
  const TransferKey := "Transfer to an exempt non charitable related organization"
  const EmployeesKey := "Total number of individuals employed in calendar year"
  const VolunteersKey := "Total number of volunteers"
  const AssetsKey := "fair market value of all assets"
  const Over50kKey := "total number of employees receiving over $50k"
  const Over100kKey := "total number of independent contractors receiving over $100k"
  const UnrelatedRevenueKey := "Total unrelated business revenue"
  const DonorAdvisedKey := "did the organization maintain any donor advised fund"
  const LocalChaptersKey := "B10a: did the organziation have local chapters or affiliates"

  /** Form 990: the mission, the contractor count and the two indicators are
      required, the amounts and head counts optional. */
  const Reads990 := [Read(MissionKey, [], "ActivityOrMissionDesc", false), Read(ExpensesKey, [], "ExpenseAmt", true),
                     Read(RevenueKey, [], "RevenueAmt", true), Read(VolunteersKey, [], "TotalVolunteersCnt", true),
                     Read(EmployeesKey, [], "TotalEmployeeCnt", true),
                     Read(Over100kKey, [], "IndivRcvdGreaterThan100KCnt", false),
                     Read(UnrelatedRevenueKey, [], "UnrelatedBusinessRevenueAmt", true),
                     Read(DonorAdvisedKey, [], "DonorAdvisedFundInd", false),
                     Read(LocalChaptersKey, [], "LocalChaptersInd", false)]

  /** Form 990-EZ: only the optional transfer indicator. */
  const ReadsEZ := [Read(TransferKey, [], "TrnsfrExmptNonChrtblRltdOrgInd", true)]

  /** The officer group of a private foundation's return. */
  const OfficerGroupTag := "OfficerDirTrstKeyEmplInfoGrp"

  /** Form 990-PF: the asset value, and the count of other employees paid over
      $50k from the officer group, both optional. */
  const ReadsPF := [Read(AssetsKey, [], "FMVAssetsEOYAmt", true),
                    Read(Over50kKey, [OfficerGroupTag], "OtherEmployeePaidOver50kCnt", true)]

  const Keys990: set<string> :=
    {MissionKey, ExpensesKey, RevenueKey, VolunteersKey, EmployeesKey, Over100kKey, UnrelatedRevenueKey,
     DonorAdvisedKey, LocalChaptersKey}

  lemma Table990()
    ensures DistinctKeys(Reads990) && KeysOf(Reads990) == Keys990 && Keys990 !! CommonKeys
  {
    Apart990();
    var s := Reads990;
    assert s[0].key == MissionKey && s[1].key == ExpensesKey && s[2].key == RevenueKey && s[3].key == VolunteersKey;
    assert s[4].key == EmployeesKey && s[5].key == Over100kKey && s[6].key == UnrelatedRevenueKey;
    assert s[7].key == DonorAdvisedKey && s[8].key == LocalChaptersKey;
  }

  lemma Apart990()
    ensures Keys990 !! CommonKeys
  {
  }

  lemma TableEZ()
    ensures DistinctKeys(ReadsEZ) && KeysOf(ReadsEZ) !! CommonKeys
  {
    assert ReadsEZ[0].key == TransferKey;
    assert KeysOf(ReadsEZ) == {TransferKey};
  }

  lemma TablePF()
    ensures DistinctKeys(ReadsPF) && KeysOf(ReadsPF) !! CommonKeys
  {
    assert ReadsPF[0].key == AssetsKey && ReadsPF[1].key == Over50kKey;
    assert KeysOf(ReadsPF) == {AssetsKey, Over50kKey};
  }

  /** A variant's row: the common columns, held as before, and the variant's
      table read under its form body. */
  ghost predicate FormColumns(r: Record, dom: Node, form: string, spec: seq<Read>) {
    && r.Keys == CommonKeys + KeysOf(spec)
    && CommonHeld(r, dom)
    && AllRead(r, FormNode(dom, form), spec)
  }

  /** The form body's reads written over the common columns. */
  function FormInto(common: Record, body: Node, spec: seq<Read>): (r: Result<Record>)
    requires DistinctKeys(spec)
    ensures r.Success? <==> AllReadable(Some(body), spec)
    ensures r.Success? ==> Stamped(r.value, common, KeysOf(spec)) && AllRead(r.value, Some(body), spec)
  {
    ReadInto(common, body, spec)
  }

  /** Writing a variant's table never disturbs a common column. */
  lemma CommonKept(r: Record, common: Record, dom: Node, form: string, spec: seq<Read>)
    requires CommonColumns(common, dom) && KeysOf(spec) !! CommonKeys
    requires Stamped(r, common, KeysOf(spec)) && AllRead(r, FormNode(dom, form), spec)
    ensures FormColumns(r, dom, form, spec)
  {
    CommonTable();
    YearKept(r, common, KeysOf(spec), HeaderNode(dom));
    AllReadKept(r, common, KeysOf(spec), HeaderNode(dom), CommonReads);
  }

  /** A return filed on Form 990. */
  function ExtractData990(dom: Node): (r: Result<Record>)
    ensures CommonData(dom).Failure? ==> r == Failure(CommonData(dom).error)
    ensures r.Success? <==> && CommonReadable(dom) && FormNode(dom, "IRS990").Some?
                            && AllReadable(FormNode(dom, "IRS990"), Reads990)
    ensures r.Success? ==> FormColumns(r.value, dom, "IRS990", Reads990)
  {
    var common :- CommonData(dom);
    var body :- FormElement(dom, "IRS990");
    Table990();
    var r :- FormInto(common, body, Reads990);
    CommonKept(r, common, dom, "IRS990", Reads990);
    Success(r)
  }

  /** A return filed on Form 990-EZ. */
  function ExtractData990EZ(dom: Node): (r: Result<Record>)
    ensures CommonData(dom).Failure? ==> r == Failure(CommonData(dom).error)
    ensures r.Success? <==> && CommonReadable(dom) && FormNode(dom, "IRS990EZ").Some?
                            && AllReadable(FormNode(dom, "IRS990EZ"), ReadsEZ)
    ensures r.Success? ==> FormColumns(r.value, dom, "IRS990EZ", ReadsEZ)
  {
    var common :- CommonData(dom);
    var body :- FormElement(dom, "IRS990EZ");
    TableEZ();
    var r :- FormInto(common, body, ReadsEZ);
    CommonKept(r, common, dom, "IRS990EZ", ReadsEZ);
    Success(r)
  }

  /** A return filed on Form 990-PF; its officer group must be there, once, before
      anything is read from the form. */
  function ExtractData990PF(dom: Node): (r: Result<Record>)
    ensures CommonData(dom).Failure? ==> r == Failure(CommonData(dom).error)
    ensures r.Success? <==> && CommonReadable(dom) && FormNode(dom, "IRS990PF").Some?
                            && Under(FormNode(dom, "IRS990PF"), OfficerGroupTag).Some?
                            && AllReadable(FormNode(dom, "IRS990PF"), ReadsPF)
    ensures r.Success? ==> FormColumns(r.value, dom, "IRS990PF", ReadsPF)
  {
    var common :- CommonData(dom);
    var body :- FormElement(dom, "IRS990PF");
    var group :- SingleChild(body, OfficerGroupTag);
    TablePF();
    var r :- FormInto(common, body, ReadsPF);
    CommonKept(r, common, dom, "IRS990PF", ReadsPF);
    Success(r)
  }
}

/** The organization run: every document is classified, dispatched on its return
    type and contributes exactly one row. */
module OrganizationsMain {
  import opened Wrappers
  import opened Xml
  import opened Navigation
  import opened Records
  import opened Header
  import opened Runs
  import opened Filer
  import opened Organizations

  /** The extractor of a variant. */
  function ExtractData(t: FormType, dom: Node): (r: Result<Record>)
    ensures r.Success? <==> CommonReadable(dom) && FormReadable(t, dom)
  {
    match t
    case Base => ExtractData990(dom)
    case EZ => ExtractData990EZ(dom)
    case PrivateFoundation => ExtractData990PF(dom)
  }

  /** The form body each variant reads its figures from. */
  function FormTag(t: FormType): string {
    match t
    case Base => "IRS990"
    case EZ => "IRS990EZ"
    case PrivateFoundation => "IRS990PF"
  }

  /** The figures each variant adds to the common columns. */
  function FormReads(t: FormType): seq<Read> {
    match t
    case Base => Reads990
    case EZ => ReadsEZ
    case PrivateFoundation => ReadsPF
  }

  /** What variant `t` needs of a document beyond its common columns: the form
      body, for Form 990-PF its officer group, and every figure it reads. */
  ghost predicate FormReadable(t: FormType, dom: Node) {
    && FormNode(dom, FormTag(t)).Some?
    && (t == PrivateFoundation ==> Under(FormNode(dom, FormTag(t)), OfficerGroupTag).Some?)
    && AllReadable(FormNode(dom, FormTag(t)), FormReads(t))
  }

  /** A document's one row, or its failure. */
  function OneRow(x: Result<Record>): Result<seq<Record>> {
    if x.Success? then Success([x.value]) else Failure(x.error)
  }

  /** One document of the run: its EIN and return type are read first; a return
      type none of the three variants has aborts the run. */
  function OrganizationDocument(dom: Node): (r: Result<seq<Record>>)
    ensures Classify(dom).Failure? ==> r == Failure(Classify(dom).error)
    ensures Classify(dom).Success? && Classify(dom).value.returnType == Some("990") ==> r == OneRow(ExtractData990(dom))
    ensures Classify(dom).Success? && Classify(dom).value.returnType == Some("990EZ") ==> r == OneRow(ExtractData990EZ(dom))
    ensures Classify(dom).Success? && Classify(dom).value.returnType == Some("990PF") ==> r == OneRow(ExtractData990PF(dom))
    ensures Classify(dom).Success? && FormTypeOf(Classify(dom).value.returnType).None? ==>
              r == Failure(UnknownType(Classify(dom).value.returnType))
    ensures r.Success? ==> |r.value| == 1
    ensures r.Success? ==>
              && Classify(dom).Success?
              && var t := FormTypeOf(Classify(dom).value.returnType);
                 t.Some? && FormColumns(r.value[0], dom, FormTag(t.value), FormReads(t.value))
  {
    var classified :- Classify(dom);
    match FormTypeOf(classified.returnType)
    case None => Failure(UnknownType(classified.returnType))
    case Some(t) =>
      var row :- ExtractData(t, dom);
      Success([row])
  }

  /** A document filed as variant `t` whose common columns and form body are
      readable yields one row, and its `Type` column is the code of `t`. */
  lemma TypeColumnNamesVariant(dom: Node, t: FormType)
    requires ExtractEin(dom).Success? && ExtractFileType(dom) == Success(Some(Code(t)))
    requires CommonReadable(dom) && FormReadable(t, dom)
    ensures OrganizationDocument(dom).Success?
    ensures var row := OrganizationDocument(dom).value[0];
            TypeKey in row && row[TypeKey] == Str(Code(t))
  {
    assert Classify(dom).value.returnType == Some(Code(t));
    assert FormTypeOf(Some(Code(t))) == Some(t);
    var row := ExtractData(t, dom).value;
    assert OrganizationDocument(dom) == Success([row]);
    CommonTable();
    assert CommonReads[0] == TypeRead;
    assert HoldsRead(row, HeaderNode(dom).value, CommonReads[0]);
  }

  /** The organization run over a sequence of documents: one row per document, in
      document order; the first failing document aborts it. */
  method ParseOrganizations(docs: seq<Node>) returns (r: Result<seq<Record>>)
    ensures r.Success? <==> forall i | 0 <= i < |docs| :: OrganizationDocument(docs[i]).Success?
    ensures r.Success? ==> r.value == Joined(docs, OrganizationDocument) && |r.value| == |docs|
    ensures r.Failure? ==>
              exists i | 0 <= i < |docs| ::
                OrganizationDocument(docs[i]) == Failure(r.error)
                && forall j | 0 <= j < i :: OrganizationDocument(docs[j]).Success?
  {
    r := RunAll(docs, OrganizationDocument);
    if r.Success? {
      JoinedOnePerDocument(docs, OrganizationDocument);
    }
  }
}
