# IRS Form 990 extractor, modelled in Dafny

This project models the extraction layer of a tool that turns electronically
filed IRS Form 990, 990-EZ and 990-PF returns into flat tables. The tool has
four listings:

- **organizations**: one row per return;
- **accountants**: at most one row per return, naming the preparer firm and,
  on 990-PF, who keeps the books;
- **staff**: one row per person in three employee groups, where a trustee
  counts only when it has an address;
- **beneficiaries**: one row per grant paid to a named organization with an
  address.

The model covers:

- the tag-navigation primitives every listing is built from: the unique direct
  child, required or optional; the text of such a child; all descendants with a
  tag;
- the recipient-address renderer;
- the return header: filer, EIN, return type, filing year;
- the four per-listing extractors;
- the two batch runs, which dispatch on the return type and collect rows.

A parsed XML document is an immutable tree (`Xml.Node`). A row is a
`map<string, Value>` whose values are a text, the integer filing year, or
`Null`; `Null` is what a text read gives when the element's first child is
itself an element. Every exception that aborts a document is a `Failure` with
one of a few `Error` values. The tag names, column names (misspellings
included) and the order of reads are those of the extractor, so the first failing
read is the one that decides the error.

Column tables (`Records.Read`) describe each block of reads. Each entry names a
column, a path of unique children to walk, a tag, and whether the read is
optional. `Records.ReadInto` performs the reads in order. Its contract states:

- it succeeds exactly when every read can be made;
- every column then holds its read's text;
- nothing but those columns is written;
- the error is that of the first read that fails.

The per-listing contracts are stated through this contract.

Behaviour kept as written:

- **Beneficiaries, person-only grantees.** A grant instance naming only a
  person (no `RecipientBusinessName`) is always skipped. The person's name is
  still read first, so a duplicated or empty person name aborts the document.
- **Accountants, 990-PF without a preparer firm.** When a 990-PF return has a
  books custodian but no preparer firm, the books columns are written into an
  absent record, and that aborts the document.
- **Beneficiaries common columns.** The beneficiary listing's common columns are
  computed by the same code as the staff listing's, so `Staff.CommonData` models
  both.

## Model

| member | source | states |
|---|---|---|
| Navigation.MatchesMembers | extractor/utils.py:42-45 | the collected list holds exactly the direct children that are elements tagged with the name |
| Navigation.ExtractSingleTag | extractor/utils.py:38-53 | succeeds exactly with one matching child, or none when optional; absent exactly when optional and none match; otherwise returns the unique match; fails with `Missing` for none and `Duplicate` for several, even when optional |
| Navigation.SingleChild | extractor/utils.py:38-53 | the required lookup: succeeds exactly with one match and returns it, else `Missing`/`Duplicate` |
| Navigation.TheChildIsUnique | extractor/utils.py:52-53 | the returned child is a child with the tag, and every child with the tag is it |
| Navigation.NoneNamed | extractor/utils.py:47-48 | no match exactly when no direct child is an element with the tag |
| Navigation.SeveralNamed | extractor/utils.py:52 | more than one match exactly when two distinct children carry the tag |
| Navigation.ExtractSingleTagIgnoresOthers | extractor/utils.py:43-45 | removing a text node or an element with another tag, with its whole subtree, never changes the lookup |
| Navigation.ExtractSingleTagValue | extractor/utils.py:56-63 | succeeds exactly when the child is unique with a first child node, or absent and optional; gives that node's value (`None` for an element), or "" when absent; failures are `Missing`, `NoText` or `Duplicate` |
| Navigation.Descend | extractor/organizations/parser.py:104-106 | a chain of required unique-child lookups succeeds exactly when every step has a unique child, and reaches the node the path names |
| Navigation.ExtractTagInstances | extractor/utils.py:66-70 | a text node has no instances; every instance is an element carrying the tag; there are fewer instances than nodes under the root (`InstancesLocated` shows the root itself is never one) |
| Navigation.InstancesLocated | extractor/utils.py:66-70 | every instance found is an element with the tag, a child of the parent paired with it, and smaller than the root, so never the root |
| Navigation.InstancesArePreorder | extractor/utils.py:66-70 | the descendant search equals the document-order traversal filtered by tag |
| Navigation.InstancesCover | extractor/utils.py:66-70 | a child with the tag, and everything found below any child, is found from the root |
| Records.ReadOne | extractor/organizations/parser.py:90-93 | a read along a path succeeds exactly when the path leads somewhere and the text read there succeeds, and gives that text |
| Records.ReadInto | extractor/organizations/parser.py:109-128 | a block of reads succeeds exactly when every read can be made; each column then holds its text and only those columns are written; otherwise the error is the first failing read's |
| Dates.ParseDate | extractor/organizations/parser.py:49 | an unparsable date fails with `BadDate` |
| Dates.ParseDateSound | extractor/organizations/parser.py:49 | a parsed date is a calendar date whose `YYYY-MM-DD` text is exactly the input |
| Dates.ParseFormatted | extractor/organizations/parser.py:49 | every calendar date's text parses back to that date |
| Dates.FilingYear | extractor/organizations/parser.py:48-50 | a missing text or an unparsable date fails with `BadDate` |
| Dates.FilingYearSound | extractor/organizations/parser.py:48-50 | a filing year comes from a ten-character text starting with its four digits |
| Dates.FilingYearOfDate | extractor/organizations/parser.py:48-50 | every calendar date's text yields its own year |
| Dates.FilingYearExample | extractor/organizations/parser.py:48-50 | a period beginning 2019-07-01 gives filing year 2019 |
| Header.ExtractHeader | extractor/utils.py:28-30 | succeeds exactly when `Return` and then `ReturnHeader` are unique, and returns that header |
| Header.FiledHeader | extractor/staff/parser.py:28-30 | as above, also requiring a unique `Filer` under the header |
| Header.ExtractEin | extractor/utils.py:22-25 | succeeds exactly when the filer path exists and its `EIN` is readable, and gives that text |
| Header.ExtractFileType | extractor/utils.py:33-35 | succeeds exactly when the header exists and its `ReturnTypeCd` is readable, and gives that text |
| Header.FormElement | extractor/organizations/parser.py:104-106 | `Return/ReturnData/<form>` is found exactly when every step is unique |
| Header.ReadFilingYear | extractor/organizations/parser.py:48-50 | succeeds exactly when `TaxPeriodBeginDt` is readable and its text is a date, giving that date's year |
| Header.FormTypeOf | extractor/organizations/main.py:19-26 | a return type names a variant only if it is exactly that variant's code, and "no variant" only if it is none of the three codes |
| Header.FormTypeRoundTrip | extractor/organizations/main.py:19-24 | each variant's code names that variant |
| Header.Classify | extractor/utils.py:12-19 | a document is classified exactly when its EIN and return type can both be read, and carries both texts |
| Filer.YearInto | extractor/organizations/parser.py:47-50 | writes only `Filing Year`, which holds the year of the tax period, exactly when that date can be read |
| Filer.HeaderInto | extractor/accountants/parser.py:43-80 | the filer columns succeed exactly when the year and every read can be made; the row has exactly the year, the read columns and `Country`, which is always "US" |
| Address.FormatOther | extractor/utils.py:74-102 | any element that is neither kind of address renders as "" |
| Address.FormatUs | extractor/utils.py:76-83 | a domestic address renders exactly when its four parts are readable, as `street, city, state zip` |
| Address.FormatForeign | extractor/utils.py:85-100 | a foreign address renders exactly when street and country have text and city and province are absent or readable; it leaves out blank city and province with their commas, and ends with the country code |
| Address.UsAddressRendering | extractor/utils.py:76-83 | every domestic address in the canonical layout (one text child per part) renders as `street, city, state zip` |
| Address.ForeignAddressRendering | extractor/utils.py:85-100 | every foreign address in the canonical layout (one text child per part) renders with exactly its non-blank parts |
| Address.UsAddressExample | extractor/utils.py:83 | a concrete domestic address renders as expected |
| Address.ForeignAddressExample | extractor/utils.py:92-100 | a foreign address without city or province renders as `street, country` |
| Address.RecipientAddress | extractor/staff/parser.py:103-109 | the domestic address wins when present; the foreign one is looked at only without it; absent exactly when neither is there; fails exactly when the address child that is looked at is duplicated |
| Address.RecipientAddressText | extractor/staff/parser.py:103-111 | the rendered address is absent exactly when the instance has no address element, otherwise the chosen element's rendering; fails exactly on an ambiguous or unrenderable address |
| Groups.Expand | extractor/staff/parser.py:95-121 | a loop with skips succeeds exactly when no instance fails; its length is the number of kept instances, each row is some instance's record, and otherwise the error is the first failing instance's |
| Groups.ExpandAll | extractor/staff/parser.py:73-85 | a loop without skips gives one row per instance, in order, or the first instance's failure |
| Groups.ExpandOrigins | extractor/beneficiaries/parser.py:73-103 | when the loop succeeds, the rows are an order-preserving selection of the instances: row k comes from a strictly later instance than row k-1 |
| Groups.KeptCountWhere | extractor/staff/parser.py:104-109 | when an instance is kept exactly if a condition holds, the row count is the number of instances meeting it |
| Runs.RunAll | extractor/staff/main.py:16-22 | a run succeeds exactly when every document does, and concatenates their rows in document order; otherwise it fails with the first failing document's error |
| Runs.JoinedLength | extractor/staff/main.py:16-22 | the run's output is as long as the documents' row counts added up |
| Runs.JoinedOnePerDocument | extractor/organizations/main.py:16-28 | with one row per document, row i is document i's row |
| Staff.CommonData | extractor/staff/parser.py:25-65 | succeeds exactly when the filer, date and every common read are there; the row has exactly the common columns, each holding its read, with the year and `Country` "US" |
| Staff.TypedInto | extractor/staff/parser.py:75-83 | the group tag is written into `Employee Type`, then the instance's reads; the common columns are untouched |
| Staff.SectionARecord | extractor/staff/parser.py:75-85 | a section A row succeeds exactly when title and compensation are readable and the name is absent or readable |
| Staff.SectionARows | extractor/staff/parser.py:68-87 | one row per section A instance, in order, each holding that instance's columns |
| Staff.ExtractEmployeeInfo1 | extractor/staff/parser.py:68-87 | over a document: succeeds exactly when every section A instance is readable, with one row per instance in document order holding that instance's columns |
| Staff.NamedInto | extractor/staff/parser.py:97-100 | name and title, both required, are written under the trustee tag |
| Staff.PaidInto | extractor/staff/parser.py:102-118 | the instance is skipped exactly when it has no address; otherwise the rendered address and the required compensation are written |
| Staff.TrusteeRecord | extractor/staff/parser.py:95-121 | a trustee instance succeeds exactly when it is readable, and yields a row exactly when it has an address |
| Staff.TrusteeRecordColumns | extractor/staff/parser.py:97-118 | a readable trustee instance with an address yields a row, and that row holds the common columns, the trustee tag, name, title, the chosen address's rendering and the compensation |
| Staff.TrusteeRows | extractor/staff/parser.py:90-123 | the trustee loop succeeds exactly when every instance is readable, and has one row per instance with an address |
| Staff.TrusteeRowsColumns | extractor/staff/parser.py:93-123 | when every instance is readable the loop succeeds; row k comes from the k-th addressed instance in order and holds what that instance gives |
| Staff.ExtractEmployeeInfo2 | extractor/staff/parser.py:90-123 | over a document: succeeds exactly when every officer/director/trustee instance is readable, with one row per instance that has an address |
| Staff.KeyEmployeeRecord | extractor/staff/parser.py:133-143 | a key-employee row succeeds exactly when title, address line and compensation are each absent or readable |
| Staff.KeyEmployeeRows | extractor/staff/parser.py:126-145 | one row per key-employee instance, in order, each holding that instance's columns |
| Staff.ExtractEmployeeInfo3 | extractor/staff/parser.py:126-145 | over a document: succeeds exactly when every key-employee instance is readable, with one row per instance in document order holding that instance's columns |
| Staff.ExtractContractorData | extractor/staff/parser.py:148-153 | contractors never yield rows |
| Staff.StaffRows | extractor/staff/parser.py:159-163 | succeeds exactly when all three groups are readable; the rows number the section A instances, plus the addressed trustees, plus the key employees |
| Staff.ExtractPeopleData | extractor/staff/parser.py:156-163 | a common-column failure aborts the document; it succeeds exactly when the filer's columns and all three groups are readable, and its rows are then the staff rows built on the document's own common columns, so the three block lemmas below describe them |
| Staff.GroupsInOrder | extractor/staff/parser.py:163 | concatenated group rows keep the common columns and come sorted by group |
| Staff.StaffRowsShape | extractor/staff/parser.py:159-163 | when all three groups are readable the rows exist, every row keeps the common columns unchanged, and the rows come as section A, then trustees, then key employees |
| Staff.PeopleDataShape | extractor/staff/parser.py:156-163 | a document whose filer columns and groups are readable has staff rows, each carrying its common columns unchanged, grouped in that order |
| Staff.SectionABlock | extractor/staff/parser.py:159-163 | the staff rows begin with one row per section A instance, in document order, each holding that instance's columns |
| Staff.TrusteeBlock | extractor/staff/parser.py:160-163 | after the section A rows come one row per kept trustee instance, filling exactly the rows before the key-employee block; the kept instances are addressed, at strictly increasing document positions, and each row holds its instance's columns |
| Staff.KeyEmployeeBlock | extractor/staff/parser.py:161-163 | the rows end with one row per key-employee instance, in document order, each holding that instance's columns, and nothing follows them |
| StaffMain.StaffDocument | extractor/staff/main.py:16-19 | the EIN and return type must be readable but do not otherwise affect the rows |
| StaffMain.ParseStaff | extractor/staff/main.py:14-22 | the staff run concatenates every document's rows in order, with length equal to the sum of their counts; the first failing document aborts it |
| Organizations.CommonData | extractor/organizations/parser.py:41-98 | succeeds exactly when the header, date and every common read are there; the row has exactly the 13 common columns, each holding its read, with phone and second address line "" when absent and `Country` "US" |
| Organizations.ExtractData990 | extractor/organizations/parser.py:101-133 | a common failure propagates; succeeds exactly when the common columns, the unique `IRS990` body and its reads are there; the row is the common columns unchanged plus the nine 990 columns |
| Organizations.ExtractData990EZ | extractor/organizations/parser.py:136-153 | as for 990, with the single optional transfer column from `IRS990EZ` |
| Organizations.ExtractData990PF | extractor/organizations/parser.py:156-173 | as for 990, also requiring a unique officer group under `IRS990PF`; adds the asset value and the over-$50k count, both optional |
| OrganizationsMain.OrganizationDocument | extractor/organizations/main.py:16-28 | an unclassifiable document aborts; "990", "990EZ" and "990PF" go to their own extractor; any other type aborts with `UnknownType`; success gives exactly one row holding the dispatched variant's columns |
| OrganizationsMain.ExtractData | extractor/organizations/main.py:19-24 | the extractor dispatched to for a variant succeeds exactly when the common columns are readable and the document has that variant's form body, for 990-PF its officer group, and readable figures |
| OrganizationsMain.TypeColumnNamesVariant | extractor/organizations/main.py:19-24 | a document of a known return type whose common columns and form figures are readable yields one row, whose `Type` column is that return type's code |
| OrganizationsMain.ParseOrganizations | extractor/organizations/main.py:14-28 | the run has one row per document, in document order; the first failing document aborts it |
| Accountants.FirmGroupInto | extractor/accountants/parser.py:87-102 | firm name and address groups must be unique; the firm EIN is optional, the name and four address parts required; only the six firm columns are written |
| Accountants.FirmInto | extractor/accountants/parser.py:83-104 | no row exactly when the header has no preparer firm group; otherwise the filer columns are kept and the firm's added |
| Accountants.CommonData | extractor/accountants/parser.py:37-104 | succeeds exactly when the filer columns can be read and the firm is absent or readable; absent exactly when there is no firm group, a check made after the filer reads |
| Accountants.ExtractData990 | extractor/accountants/parser.py:107-114 | the 990 and 990-EZ extractors give the common data as it is, absent or not |
| Accountants.BooksInto | extractor/accountants/parser.py:123-137 | no books row exactly when `PersonsWithBooksName` is absent; otherwise the location group is required and the four books columns, phone included, are read |
| Accountants.ExtractData990PF | extractor/accountants/parser.py:117-139 | a common failure propagates; succeeds exactly when the common data and form body are readable and either there is no books custodian, or its location and reads are readable and a preparer firm is present; no row exactly without a books custodian; a books custodian without a preparer firm aborts with `NoRecord`; a row holds the common, firm and books columns |
| Beneficiaries.GranteeNamed | extractor/beneficiaries/parser.py:78-83 | without a business name the person's name is still read and the instance dropped; with one, its first line is required |
| Beneficiaries.GrantInto | extractor/beneficiaries/parser.py:96-101 | status optional, purpose and amount required, and the total is the required child of the instance's parent |
| Beneficiaries.GranteePaid | extractor/beneficiaries/parser.py:85-101 | skipped exactly without an address; otherwise the chosen address's rendering, the grant's columns and the group total are written |
| Beneficiaries.GranteeRecord | extractor/beneficiaries/parser.py:75-103 | succeeds exactly when readable; yields a row exactly when it names an organization and has an address; without a business name it never yields a row |
| Beneficiaries.GranteeRecordColumns | extractor/beneficiaries/parser.py:75-103 | a readable grant instance that names an organization and has an address (listed) yields a row, and that row holds the common columns, the name, the address, the grant's columns and the group total |
| Beneficiaries.GranteeRows | extractor/beneficiaries/parser.py:68-105 | the loop succeeds exactly when every instance is readable; its length is the number of listed instances, at most the instance count |
| Beneficiaries.ExtractGranteesInfo | extractor/beneficiaries/parser.py:68-105 | over a document: succeeds exactly when every grant instance is readable, with one row per instance that names an organization and has an address (listed) |
| Beneficiaries.GranteeRowsColumns | extractor/beneficiaries/parser.py:71-105 | when every instance is readable the loop succeeds; the rows are an order-preserving selection of the listed instances, each holding what its instance gives |
| Beneficiaries.SharedTotal | extractor/beneficiaries/parser.py:100-101 | two readable instances that name an organization and have an address (listed), under the same parent, both yield rows carrying the same total |
| Beneficiaries.GranteesKeepCommon | extractor/beneficiaries/parser.py:75 | when every instance is readable the loop succeeds and every grantee row carries the common columns unchanged |
| Beneficiaries.ExtractBeneficiaryData | extractor/beneficiaries/parser.py:108-113 | a common-column failure aborts the document; it succeeds exactly when the filer's columns and every grant instance are readable, with one row per listed grant instance |
| Beneficiaries.BeneficiaryDataKeepsCommon | extractor/beneficiaries/parser.py:108-113 | a document whose filer columns and grant instances are readable has beneficiary rows, each carrying its common columns unchanged |

## Left out

- File reading and XML parsing (`read_xml`), the directory scan and the CSV printer are not modelled. Documents are already-parsed trees; a run's output is its sequence of rows.
- Comments, CDATA sections and processing instructions are not in the tree model. Only elements and text nodes are.
- The batch runs of the accountant and beneficiary listings (their `main.py` modules) and the entry script are not part of this model.
- Progress messages are not modelled.
- Column order in the CSV, and the union of columns across rows, belong to the printer and are not modelled. A row is a map.
- Python's exception types (assertion, attribute, type, value errors) are collapsed into the few `Error` values. Only which document fails, and the first failing read's kind, are kept.
- Dates.ParseDate: accepts only the strict `YYYY-MM-DD` form with two-digit month and day. The runtime's date parser also accepts one-digit months and days, and its other leniencies are not modelled.
- Dates.FilingYear: a missing (`None`) date text fails with `BadDate`, like an unparsable one. The runtime raises a different exception type there.
- Staff.ExtractPeopleData: the runtime's `None` check in the staff run is not modelled, since the extractor never returns `None`.
