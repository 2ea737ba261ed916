/** Recipient addresses: finding a person's or grantee's address element and
    rendering it as one display string.
 */
module Address {
  import opened Wrappers
  import opened Xml
  import opened Navigation

  const UsTag := "RecipientUSAddress"
  const ForeignTag := "RecipientForeignAddress"

  /** How string interpolation renders a text read: `None` prints as "None". */
  function Show(v: Option<string>): string {
    if v.Some? then v.value else "None"
  }

  /** A text read that is present and non-empty, so a truth test keeps it. */
  predicate Truthy(v: Option<string>) {
    v.Some? && v.value != ""
  }

  /** The domestic layout: `street, city, state zip`. */
  function UsLine(street: Option<string>, city: Option<string>, state: Option<string>, zip: Option<string>): string {
    Show(street) + ", " + Show(city) + ", " + Show(state) + " " + Show(zip)
  }

  /** The foreign layout: `street, [city, ][state, ]country`, blank parts left out
      together with their comma. */
  function ForeignLine(street: string, city: Option<string>, state: Option<string>, country: string): string {
    street + ", "
    + (if Truthy(city) then city.value + ", " else "")
    + (if Truthy(state) then state.value + ", " else "")
    + country
  }

  /** Renders an address element by its own tag. A domestic address needs street,
      city, state and ZIP; a foreign one needs street and country, with city and
      province optional. Any other element renders as "". */
  function FormatAddress(a: Node): Result<string>
  {
    if IsNamed(a, UsTag) then
      var street :- ExtractSingleTagValue(a, "AddressLine1Txt", false);
      var city :- ExtractSingleTagValue(a, "CityNm", false);
      var state :- ExtractSingleTagValue(a, "StateAbbreviationCd", false);
      var zip :- ExtractSingleTagValue(a, "ZIPCd", false);
      Success(UsLine(street, city, state, zip))
    else if IsNamed(a, ForeignTag) then
      var street :- ExtractSingleTagValue(a, "AddressLine1Txt", false);
      var city :- ExtractSingleTagValue(a, "CityNm", true);
      var state :- ExtractSingleTagValue(a, "ProvinceOrStateNm", true);
      var country :- ExtractSingleTagValue(a, "CountryCd", false);
      if street.None? || country.None? then Failure(NotText)
      else Success(ForeignLine(street.value, city, state, country.value))
    else Success("")
  }

  /** Any element other than an address renders as the empty string. */
  lemma FormatOther(a: Node)
    requires !IsNamed(a, UsTag) && !IsNamed(a, ForeignTag)
    ensures FormatAddress(a) == Success("")
  {
  }

  /** A domestic address renders exactly when its four parts are readable, as
      `street, city, state zip`; a part without text shows as "None". */
  lemma FormatUs(a: Node)
    requires IsNamed(a, UsTag)
    ensures FormatAddress(a).Success? <==> && Readable(a, "AddressLine1Txt") && Readable(a, "CityNm")
                                           && Readable(a, "StateAbbreviationCd") && Readable(a, "ZIPCd")
    ensures FormatAddress(a).Success? ==>
              FormatAddress(a).value == UsLine(RequiredText(a, "AddressLine1Txt"), RequiredText(a, "CityNm"),
                                                RequiredText(a, "StateAbbreviationCd"), RequiredText(a, "ZIPCd"))
  {
  }

  /** A foreign address renders exactly when street and country have text and city
      and province are readable if present; the country ends the line. */
  lemma FormatForeign(a: Node)
    requires IsNamed(a, ForeignTag)
    ensures FormatAddress(a).Success? <==> && Readable(a, "AddressLine1Txt") && RequiredText(a, "AddressLine1Txt").Some?
                                           && OptionallyReadable(a, "CityNm") && OptionallyReadable(a, "ProvinceOrStateNm")
                                           && Readable(a, "CountryCd") && RequiredText(a, "CountryCd").Some?
    ensures FormatAddress(a).Success? ==>
              && FormatAddress(a).value == ForeignLine(RequiredText(a, "AddressLine1Txt").value, OptionalText(a, "CityNm"),
                                                       OptionalText(a, "ProvinceOrStateNm"), RequiredText(a, "CountryCd").value)
              && var country := RequiredText(a, "CountryCd").value;
                 |country| <= |FormatAddress(a).value| && FormatAddress(a).value[|FormatAddress(a).value| - |country|..] == country
  {
  }

  /** The address of a repeated-group instance: its `RecipientUSAddress` child when
      there is one, otherwise its `RecipientForeignAddress` child, otherwise none.
      A duplicated address child fails; the foreign child is not looked at when a
      domestic one is found. */
  function RecipientAddress(g: Node): (r: Result<Option<Node>>)
    ensures ChildCount(g, UsTag) == 1 ==> r == Success(Some(TheChild(g, UsTag)))
    ensures ChildCount(g, UsTag) == 0 && ChildCount(g, ForeignTag) == 1 ==> r == Success(Some(TheChild(g, ForeignTag)))
    ensures r.Success? && r.value.None? <==> ChildCount(g, UsTag) == 0 && ChildCount(g, ForeignTag) == 0
    ensures r.Failure? <==> ChildCount(g, UsTag) > 1 || (ChildCount(g, UsTag) == 0 && ChildCount(g, ForeignTag) > 1)
    ensures r.Success? && r.value.Some? ==> r.value == ChosenAddress(g)
  {
    var us :- ExtractSingleTag(g, UsTag, true);
    if us.Some? then Success(us) else ExtractSingleTag(g, ForeignTag, true)
  }

  /** Whether an instance has an address element of either kind. */
  predicate HasAddress(g: Node) {
    ChildCount(g, UsTag) > 0 || ChildCount(g, ForeignTag) > 0
  }

  /** No address child that would be looked at is duplicated. */
  ghost predicate AddressUnambiguous(g: Node) {
    ChildCount(g, UsTag) <= 1 && (ChildCount(g, UsTag) == 0 ==> ChildCount(g, ForeignTag) <= 1)
  }

  /** The address element an instance is described by: the domestic one when
      present, else the foreign one. */
  ghost function ChosenAddress(g: Node): Option<Node> {
    if ChildCount(g, UsTag) == 1 then Under(Some(g), UsTag) else Under(Some(g), ForeignTag)
  }

  /** The rendered address of a repeated-group instance: the chosen address
      element formatted, or none when the instance has no address element. */
  function RecipientAddressText(g: Node): (r: Result<Option<string>>)
    ensures r.Success? <==> AddressUnambiguous(g) && (HasAddress(g) ==> FormatAddress(ChosenAddress(g).value).Success?)
    ensures r.Success? ==> (r.value.Some? <==> HasAddress(g))
    ensures r.Success? && r.value.Some? ==> FormatAddress(ChosenAddress(g).value) == Success(r.value.value)
  {
    var element :- RecipientAddress(g);
    if element.None? then Success(None)
    else
      var text :- FormatAddress(element.value);
      Success(Some(text))
  }

  /** A domestic address element with the four parts as text. */
  function UsAddressElement(street: string, city: string, state: string, zip: string): Node {
    Element(UsTag, [Element("AddressLine1Txt", [Text(street)]), Element("CityNm", [Text(city)]),
                    Element("StateAbbreviationCd", [Text(state)]), Element("ZIPCd", [Text(zip)])])
  }

  /** A foreign address element; an absent city or province has no element at all. */
  function ForeignAddressElement(street: string, city: Option<string>, state: Option<string>, country: string): Node {
    Element(ForeignTag,
            [Element("AddressLine1Txt", [Text(street)])]
            + (if city.Some? then [Element("CityNm", [Text(city.value)])] else [])
            + (if state.Some? then [Element("ProvinceOrStateNm", [Text(state.value)])] else [])
            + [Element("CountryCd", [Text(country)])])
  }

  /** The matches of a single node: itself when it carries the tag. */
  lemma MatchesOne(n: Node, name: string)
    ensures Matches([n], name) == if IsNamed(n, name) then [n] else []
  {
    assert [n][1..] == [];
  }

  /** The first of two nodes, when only it carries the tag, is the unique child. */
  lemma UniqueAt(a: Node, tag: string, i: nat)
    requires a.Element? && i < |a.children| && IsNamed(a.children[i], tag)
    requires forall j | 0 <= j < |a.children| && j != i :: !IsNamed(a.children[j], tag)
    ensures ChildCount(a, tag) == 1 && TheChild(a, tag) == a.children[i]
  {
    var cs := a.children;
    assert cs == cs[..i] + [cs[i]] + cs[i + 1..];
    MatchesAppend(cs[..i] + [cs[i]], cs[i + 1..], tag);
    MatchesAppend(cs[..i], [cs[i]], tag);
    MatchesOne(cs[i], tag);
    NoMatchAmong(cs[..i], tag);
    NoMatchAmong(cs[i + 1..], tag);
  }

  lemma NoMatchAmong(nodes: seq<Node>, tag: string)
    requires forall j | 0 <= j < |nodes| :: !IsNamed(nodes[j], tag)
    ensures Matches(nodes, tag) == []
  {
  }

  /** Every domestic address renders as `street, city, state zip`. */
  lemma UsAddressRendering(street: string, city: string, state: string, zip: string)
    ensures FormatAddress(UsAddressElement(street, city, state, zip))
         == Success(street + ", " + city + ", " + state + " " + zip)
  {
    var a := UsAddressElement(street, city, state, zip);
    UniqueAt(a, "AddressLine1Txt", 0);
    UniqueAt(a, "CityNm", 1);
    UniqueAt(a, "StateAbbreviationCd", 2);
    UniqueAt(a, "ZIPCd", 3);
    assert RequiredText(a, "AddressLine1Txt") == Some(street);
    assert RequiredText(a, "CityNm") == Some(city);
    assert RequiredText(a, "StateAbbreviationCd") == Some(state);
    assert RequiredText(a, "ZIPCd") == Some(zip);
    FormatUs(a);
  }

  /** The facts a built foreign address offers to the renderer. */
  ghost predicate ForeignParts(a: Node, street: string, city: Option<string>, state: Option<string>, country: string) {
    && Readable(a, "AddressLine1Txt") && RequiredText(a, "AddressLine1Txt") == Some(street)
    && Readable(a, "CountryCd") && RequiredText(a, "CountryCd") == Some(country)
    && OptionallyReadable(a, "CityNm") && OptionalText(a, "CityNm") == (if city.Some? then city else Some(""))
    && OptionallyReadable(a, "ProvinceOrStateNm")
    && OptionalText(a, "ProvinceOrStateNm") == (if state.Some? then state else Some(""))
  }

  /** Where each part of a built foreign address sits among its children. */
  lemma ForeignLayout(street: string, city: Option<string>, state: Option<string>, country: string)
    ensures ForeignParts(ForeignAddressElement(street, city, state, country), street, city, state, country)
  {
    match (city, state)
    case (Some(c), Some(p)) => LayoutCityProvince(street, c, p, country);
    case (Some(c), None) => LayoutCity(street, c, country);
    case (None, Some(p)) => LayoutProvince(street, p, country);
    case (None, None) => LayoutBare(street, country);
  }

  lemma LayoutCityProvince(street: string, city: string, state: string, country: string)
    ensures ForeignParts(ForeignAddressElement(street, Some(city), Some(state), country), street, Some(city), Some(state), country)
  {
    var a := ForeignAddressElement(street, Some(city), Some(state), country);
    assert a.children == [Element("AddressLine1Txt", [Text(street)]), Element("CityNm", [Text(city)]),
                          Element("ProvinceOrStateNm", [Text(state)]), Element("CountryCd", [Text(country)])];
    UniqueAt(a, "AddressLine1Txt", 0);
    UniqueAt(a, "CityNm", 1);
    UniqueAt(a, "ProvinceOrStateNm", 2);
    UniqueAt(a, "CountryCd", 3);
  }

  lemma LayoutCity(street: string, city: string, country: string)
    ensures ForeignParts(ForeignAddressElement(street, Some(city), None, country), street, Some(city), None, country)
  {
    var a := ForeignAddressElement(street, Some(city), None, country);
    assert a.children == [Element("AddressLine1Txt", [Text(street)]), Element("CityNm", [Text(city)]),
                          Element("CountryCd", [Text(country)])];
    UniqueAt(a, "AddressLine1Txt", 0);
    UniqueAt(a, "CityNm", 1);
    NoMatchAmong(a.children, "ProvinceOrStateNm");
    UniqueAt(a, "CountryCd", 2);
  }

  lemma LayoutProvince(street: string, state: string, country: string)
    ensures ForeignParts(ForeignAddressElement(street, None, Some(state), country), street, None, Some(state), country)
  {
    var a := ForeignAddressElement(street, None, Some(state), country);
    assert a.children == [Element("AddressLine1Txt", [Text(street)]), Element("ProvinceOrStateNm", [Text(state)]),
                          Element("CountryCd", [Text(country)])];
    UniqueAt(a, "AddressLine1Txt", 0);
    NoMatchAmong(a.children, "CityNm");
    UniqueAt(a, "ProvinceOrStateNm", 1);
    UniqueAt(a, "CountryCd", 2);
  }

  lemma LayoutBare(street: string, country: string)
    ensures ForeignParts(ForeignAddressElement(street, None, None, country), street, None, None, country)
  {
    var a := ForeignAddressElement(street, None, None, country);
    assert a.children == [Element("AddressLine1Txt", [Text(street)]), Element("CountryCd", [Text(country)])];
    UniqueAt(a, "AddressLine1Txt", 0);
    NoMatchAmong(a.children, "CityNm");
    NoMatchAmong(a.children, "ProvinceOrStateNm");
    UniqueAt(a, "CountryCd", 1);
  }

  /** Every foreign address renders with exactly its non-blank parts. */
  lemma ForeignAddressRendering(street: string, city: Option<string>, state: Option<string>, country: string)
    ensures FormatAddress(ForeignAddressElement(street, city, state, country))
         == Success(ForeignLine(street, city, state, country))
  {
    var a := ForeignAddressElement(street, city, state, country);
    ForeignLayout(street, city, state, country);
    FormatForeign(a);
    assert ForeignLine(street, OptionalText(a, "CityNm"), OptionalText(a, "ProvinceOrStateNm"), country)
        == ForeignLine(street, city, state, country);
  }

  /** A typical domestic address renders with all four parts. */
  lemma UsAddressExample()
    ensures FormatAddress(UsAddressElement("123 Main St", "Springfield", "IL", "62704"))
         == Success("123 Main St, Springfield, IL 62704")
  {
    assert "123 Main St" + ", " + "Springfield" + ", " + "IL" + " " + "62704" == "123 Main St, Springfield, IL 62704";
    UsAddressRendering("123 Main St", "Springfield", "IL", "62704");
  }

  /** A foreign address without city or province has no stray commas. */
  lemma ForeignAddressExample()
    ensures FormatAddress(ForeignAddressElement("10 Rue X", None, None, "FR")) == Success("10 Rue X, FR")
  {
    assert ForeignLine("10 Rue X", None, None, "FR") == "10 Rue X, FR";
    ForeignAddressRendering("10 Rue X", None, None, "FR");
  }
}
