/** The return header: where every listing finds the filer, the return type
    and the tax period, and how a document is classified before extraction.
 */
module Header {
  import opened Wrappers
  import opened Xml
  import opened Navigation
  import opened Records
  import opened Dates

  // The unique-child paths the extractors walk.
  ghost function ReturnNode(dom: Node): Option<Node> {
    Under(Some(dom), "Return")
  }

  ghost function HeaderNode(dom: Node): Option<Node> {
    Under(ReturnNode(dom), "ReturnHeader")
  }

  ghost function FilerNode(dom: Node): Option<Node> {
    Under(HeaderNode(dom), "Filer")
  }

  /** The form body of one variant: `Return/ReturnData/<form>`. */
  ghost function FormNode(dom: Node, form: string): Option<Node> {
    Under(Under(ReturnNode(dom), "ReturnData"), form)
  }

  /** `Return/ReturnHeader`, both required and unique. */
  function ExtractHeader(dom: Node): (r: Result<Node>)
    ensures r.Success? <==> HeaderNode(dom).Some?
    ensures r.Success? ==> r.value == HeaderNode(dom).value
  {
    var ret :- SingleChild(dom, "Return");
    SingleChild(ret, "ReturnHeader")
  }

  /** `Return/ReturnHeader`, checking first that the header has a unique `Filer`. */
  function FiledHeader(dom: Node): (r: Result<Node>)
    ensures r.Success? <==> FilerNode(dom).Some?
    ensures r.Success? ==> r.value == HeaderNode(dom).value
  {
    var header :- ExtractHeader(dom);
    var filer :- SingleChild(header, "Filer");
    Success(header)
  }

  /** The filer's EIN: the text of `ReturnHeader/Filer/EIN`, all required. */
  function ExtractEin(dom: Node): (r: Result<Option<string>>)
    ensures r.Success? <==> FilerNode(dom).Some? && Readable(FilerNode(dom).value, "EIN")
    ensures r.Success? ==> TextRead(r.value, FilerNode(dom).value, "EIN", false)
  {
    var header :- ExtractHeader(dom);
    var filer :- SingleChild(header, "Filer");
    ExtractSingleTagValue(filer, "EIN", false)
  }

  /** The declared return type: the text of `ReturnHeader/ReturnTypeCd`, required. */
  function ExtractFileType(dom: Node): (r: Result<Option<string>>)
    ensures r.Success? <==> HeaderNode(dom).Some? && Readable(HeaderNode(dom).value, "ReturnTypeCd")
    ensures r.Success? ==> TextRead(r.value, HeaderNode(dom).value, "ReturnTypeCd", false)
  {
    var header :- ExtractHeader(dom);
    ExtractSingleTagValue(header, "ReturnTypeCd", false)
  }

  /** `Return/ReturnData/<form>`, every step required and unique. */
  function FormElement(dom: Node, form: string): (r: Result<Node>)
    ensures r.Success? <==> FormNode(dom, form).Some?
    ensures r.Success? ==> r.value == FormNode(dom, form).value
  {
    var ret :- SingleChild(dom, "Return");
    var data :- SingleChild(ret, "ReturnData");
    SingleChild(data, form)
  }

  /** Column `Filing Year` holds the year of the header's `TaxPeriodBeginDt` text. */
  ghost predicate YearRead(r: Record, header: Option<Node>) {
    && header.Some?
    && Readable(header.value, "TaxPeriodBeginDt")
    && FilingYearKey in r
    && var y := FilingYear(RequiredText(header.value, "TaxPeriodBeginDt"));
       y.Success? && r[FilingYearKey] == Int(y.value)
  }

  /** The filing year of a header: its required `TaxPeriodBeginDt` read as a date. */
  function ReadFilingYear(header: Node): (r: Result<int>)
    ensures r.Success? <==> Readable(header, "TaxPeriodBeginDt") && FilingYear(RequiredText(header, "TaxPeriodBeginDt")).Success?
    ensures r.Success? ==> FilingYear(RequiredText(header, "TaxPeriodBeginDt")) == Success(r.value)
  {
    var text :- ExtractSingleTagValue(header, "TaxPeriodBeginDt", false);
    FilingYear(text)
  }

  /** The three return variants the extractors know. */
  datatype FormType = Base | EZ | PrivateFoundation

  /** The `ReturnTypeCd` text of each variant. */
  function Code(t: FormType): string {
    match t
    case Base => "990"
    case EZ => "990EZ"
    case PrivateFoundation => "990PF"
  }

  /** The variant a return-type text names, if any; the comparison is exact. */
  function FormTypeOf(code: Option<string>): (r: Option<FormType>)
    ensures r.Some? ==> code == Some(Code(r.value))
    ensures r.None? ==> forall t: FormType :: code != Some(Code(t))
  {
    if code == Some("990") then Some(Base)
    else if code == Some("990EZ") then Some(EZ)
    else if code == Some("990PF") then Some(PrivateFoundation)
    else None
  }

  /** Each variant's code names that variant back. */
  lemma FormTypeRoundTrip(t: FormType)
    ensures FormTypeOf(Some(Code(t))) == Some(t)
  {
  }

  /** What is learned of a document before it is processed. */
  datatype Classified = Classified(ein: Option<string>, returnType: Option<string>)

  /** The EIN and return type of a document, read in that order, either failure
      aborting the run. */
  function Classify(dom: Node): (r: Result<Classified>)
    ensures r.Success? <==> ExtractEin(dom).Success? && ExtractFileType(dom).Success?
    ensures r.Success? ==> TextRead(r.value.ein, FilerNode(dom).value, "EIN", false)
    ensures r.Success? ==> TextRead(r.value.returnType, HeaderNode(dom).value, "ReturnTypeCd", false)
  {
    var ein :- ExtractEin(dom);
    var returnType :- ExtractFileType(dom);
    Success(Classified(ein, returnType))
  }
}
