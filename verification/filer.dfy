/** The filer columns that the organization, staff, accountant and beneficiary
    rows all begin with, read from the return header. */
module Filer {
  import opened Wrappers
  import opened Xml
  import opened Navigation
  import opened Records
  import opened Dates
  import opened Header

  /** The tax period begin date is there and parses. */
  ghost predicate YearReadable(header: Node) {
    Readable(header, "TaxPeriodBeginDt") && FilingYear(RequiredText(header, "TaxPeriodBeginDt")).Success?
  }

  /** Writes the filing year into `base`. */
  function YearInto(base: Record, header: Node): (r: Result<Record>)
    ensures r.Success? <==> YearReadable(header)
    ensures r.Success? ==> Stamped(r.value, base, {FilingYearKey}) && YearRead(r.value, Some(header))
  {
    var year :- ReadFilingYear(header);
    Success(base[FilingYearKey := Int(year)])
  }

  /** The filing year survives writes to other columns. */
  lemma YearKept(r: Record, base: Record, fields: set<string>, header: Option<Node>)
    requires YearRead(base, header) && Stamped(r, base, fields) && FilingYearKey !in fields
    ensures YearRead(r, header)
  {
  }

  // The reads every listing makes under the return header, by path from it.

  const TypeRead := Read(TypeKey, [], "ReturnTypeCd", false)
  const EinRead := Read(EinKey, ["Filer"], "EIN", false)
  const PhoneRead := Read(PhoneKey, ["Filer"], "PhoneNum", true)

  /** The filer's business name; each listing names the column its own way. */
  function NameRead(key: string): Read {
    Read(key, ["Filer", "BusinessName"], "BusinessNameLine1Txt", false)
  }

  /** A line of the filer's domestic address. */
  function PlaceRead(key: string, tag: string, optional: bool): Read {
    Read(key, ["Filer", "USAddress"], tag, optional)
  }

  const CityRead := PlaceRead(CityKey, "CityNm", false)
  const ZipRead := PlaceRead(ZipKey, "ZIPCd", false)
  const StateRead := PlaceRead(StateKey, "StateAbbreviationCd", false)
  const Address1Read := PlaceRead(Address1Key, "AddressLine1Txt", false)

  /** The filer columns under `header`: the filing year, then the reads of `spec`
      in order, and the country, which is always "US" since only the domestic
      address is read. */
  function HeaderInto(header: Node, spec: seq<Read>): (r: Result<Record>)
    requires DistinctKeys(spec) && FilingYearKey !in KeysOf(spec) && CountryKey !in KeysOf(spec)
    ensures r.Success? <==> YearReadable(header) && AllReadable(Some(header), spec)
    ensures r.Success? ==> && r.value.Keys == {FilingYearKey, CountryKey} + KeysOf(spec)
                           && YearRead(r.value, Some(header))
                           && AllRead(r.value, Some(header), spec)
                           && r.value[CountryKey] == Str("US")
  {
    var dated :- YearInto(map[], header);
    var filled :- ReadInto(dated, header, spec);
    StampedTwice(filled, dated, map[], {FilingYearKey}, KeysOf(spec));
    var r := filled[CountryKey := Str("US")];
    YearKept(r, dated, KeysOf(spec) + {CountryKey}, Some(header));
    AllReadKept(r, filled, {CountryKey}, Some(header), spec);
    Success(r)
  }
}
