/**
 * The GRESB mapping preview: a fixed list of mapping records, a
 * case-insensitive text search over three of their fields, the "matched" and
 * "issues" tabs derived from the search result, and status counts taken over
 * the whole list.
 */
module MappingPreview {
  import opened Wrappers
  import opened Text
  import opened Seqs

  datatype MappingStatus = Success | Warning | Error

  datatype MappingField = MappingField(
    id: string,
    sourceField: string,
    sourceFile: string,
    targetField: string,
    targetCategory: string,
    status: MappingStatus,
    statusMessage: Option<string>)

  /** The hard-coded records, in display order. Record 3's source field holds
      the two characters U+00C2 U+00B3 as stored in the file. */
  const MockMappings: seq<MappingField> := [
    MappingField("1", "Total Energy Consumption (kWh)", "energy_data_2024.xlsx", "Energy-Int", "Energy", Success, None),
    MappingField("2", "Scope 1 GHG Emissions", "emissions_report.pdf", "GHG-Dir-Abs", "GHG Emissions", Success, None),
    MappingField("3", "Water Usage (m\U{00C2}\U{00B3})", "water_consumption.csv", "Water-Abs", "Water", Success, None),
    MappingField("4", "Waste to Landfill (tonnes)", "waste_management.xlsx", "Waste-Abs", "Waste", Warning, Some("Units need conversion")),
    MappingField("5", "Renewable Energy Production", "energy_data_2024.xlsx", "Energy-Renewable", "Energy", Error, Some("Missing measurement unit")),
    MappingField("6", "Building Certification Type", "certifications.pdf", "Cert-Tot", "Building Certifications", Success, None),
    MappingField("7", "Scope 2 GHG Emissions", "emissions_report.pdf", "GHG-Indir-Abs", "GHG Emissions", Warning, Some("Verification needed")),
    MappingField("8", "Recycled Waste (tonnes)", "waste_management.xlsx", "Waste-Recycled", "Waste", Success, None)
  ]

  /** The search predicate on an already lowered term. `sourceFile` is not
      searched. */
  function MatchesLowered(m: MappingField, term: string): bool {
    || Includes(Lower(m.sourceField), term)
    || Includes(Lower(m.targetField), term)
    || Includes(Lower(m.targetCategory), term)
  }

  function Matches(m: MappingField, searchTerm: string): bool {
    MatchesLowered(m, Lower(searchTerm))
  }

  /** `filteredMappings`. */
  function FilteredMappings(mappings: seq<MappingField>, searchTerm: string): seq<MappingField> {
    Filter(mappings, m => Matches(m, searchTerm))
  }

  /** A record is a hit for a search term when the lowered term occurs in its
      lowered source field, target field or target category. */
  ghost predicate SearchHit(m: MappingField, searchTerm: string) {
    var term := Lower(searchTerm);
    OccursIn(Lower(m.sourceField), term) || OccursIn(Lower(m.targetField), term) || OccursIn(Lower(m.targetCategory), term)
  }

  lemma MatchesIff(m: MappingField, searchTerm: string)
    ensures Matches(m, searchTerm) <==> SearchHit(m, searchTerm)
  {
    IncludesIff(Lower(m.sourceField), Lower(searchTerm));
    IncludesIff(Lower(m.targetField), Lower(searchTerm));
    IncludesIff(Lower(m.targetCategory), Lower(searchTerm));
  }

  /** The search keeps an order-preserving selection of the records, and keeps
      exactly the records that are hits; with the records it drops, it accounts
      for every record, repeated ones included. */
  lemma FilteredMappingsSpec(mappings: seq<MappingField>, searchTerm: string)
    ensures IsSubsequence(FilteredMappings(mappings, searchTerm), mappings)
    ensures forall m :: m in FilteredMappings(mappings, searchTerm) <==> m in mappings && SearchHit(m, searchTerm)
    ensures |FilteredMappings(mappings, searchTerm)| + |Filter(mappings, m => !Matches(m, searchTerm))| == |mappings|
  {
    FilterSplits(mappings, m => Matches(m, searchTerm), m => !Matches(m, searchTerm));
    FilterIsSubsequence(mappings, m => Matches(m, searchTerm));
    FilterMembers(mappings, m => Matches(m, searchTerm));
    forall m | m in mappings
      ensures Matches(m, searchTerm) <==> SearchHit(m, searchTerm)
    {
      MatchesIff(m, searchTerm);
    }
  }

  /** The empty search shows every record. */
  lemma EmptySearchKeepsAll(mappings: seq<MappingField>)
    ensures FilteredMappings(mappings, "") == mappings
  {
    forall m | m in mappings
      ensures Matches(m, "")
    {
      IncludesEmpty(Lower(m.sourceField));
    }
    FilterKeepsAll(mappings, m => Matches(m, ""));
  }

  /** Terms that differ only in letter case select the same records; in
      particular a term and its lowered form do. */
  lemma SearchIgnoresCase(mappings: seq<MappingField>, t1: string, t2: string)
    requires Lower(t1) == Lower(t2)
    ensures FilteredMappings(mappings, t1) == FilteredMappings(mappings, t2)
    ensures FilteredMappings(mappings, Lower(t1)) == FilteredMappings(mappings, t1)
  {
    FilterCongruent(mappings, m => Matches(m, t1), m => Matches(m, t2));
    LowerIdempotent(t1);
    FilterCongruent(mappings, m => Matches(m, Lower(t1)), m => Matches(m, t1));
  }

  /** The file name a record came from plays no part in the search. */
  lemma SearchIgnoresSourceFile(m: MappingField, file: string, searchTerm: string)
    ensures Matches(m.(sourceFile := file), searchTerm) == Matches(m, searchTerm)
  {
  }

  predicate IsIssue(m: MappingField) {
    m.status == Warning || m.status == Error
  }

  /** The "Matched" tab's rows. */
  function SuccessView(filtered: seq<MappingField>): seq<MappingField> {
    Filter(filtered, (m: MappingField) => m.status == Success)
  }

  /** The "Issues" tab's rows. */
  function IssuesView(filtered: seq<MappingField>): seq<MappingField> {
    Filter(filtered, m => IsIssue(m))
  }

  /** The two tabs partition the rows they are taken from: each row is in
      exactly one of them, each keeps the original order, and their sizes add
      up. */
  lemma ViewsPartition(filtered: seq<MappingField>)
    ensures forall m :: m in filtered ==> (m in SuccessView(filtered) <==> m !in IssuesView(filtered))
    ensures forall m :: m in SuccessView(filtered) || m in IssuesView(filtered) ==> m in filtered
    ensures IsSubsequence(SuccessView(filtered), filtered)
    ensures IsSubsequence(IssuesView(filtered), filtered)
    ensures |SuccessView(filtered)| + |IssuesView(filtered)| == |filtered|
    ensures forall m :: m in SuccessView(filtered) <==> m in filtered && m.status == Success
    ensures forall m :: m in IssuesView(filtered) <==> m in filtered && IsIssue(m)
  {
    FilterIsSubsequence(filtered, (m: MappingField) => m.status == Success);
    FilterIsSubsequence(filtered, m => IsIssue(m));
    FilterMembers(filtered, (m: MappingField) => m.status == Success);
    FilterMembers(filtered, m => IsIssue(m));
    FilterSplits(filtered, (m: MappingField) => m.status == Success, m => IsIssue(m));
  }

  /** `mappings.filter(m => m.status === status).length`. */
  function CountStatus(mappings: seq<MappingField>, status: MappingStatus): nat {
    if mappings == [] then 0
    else (if mappings[0].status == status then 1 else 0) + CountStatus(mappings[1..], status)
  }

  datatype StatusCounts = StatusCounts(success: nat, warning: nat, error: nat)

  /** `statusCounts`, taken over the whole record list and not over the search
      result. */
  function StatusCountsOf(mappings: seq<MappingField>): StatusCounts {
    StatusCounts(CountStatus(mappings, Success), CountStatus(mappings, Warning), CountStatus(mappings, Error))
  }

  /** Every record has exactly one of the three statuses. */
  lemma {:induction false} StatusCountsTotal(mappings: seq<MappingField>)
    ensures var c := StatusCountsOf(mappings); c.success + c.warning + c.error == |mappings|
  {
    if mappings != [] {
      StatusCountsTotal(mappings[1..]);
    }
  }

  /** The three tab labels: the whole list's size, its success count, and its
      warning and error counts together. */
  function TabLabels(mappings: seq<MappingField>): seq<string> {
    var c := StatusCountsOf(mappings);
    [ "All Mappings (" + NatToString(|mappings|) + ")",
      "Matched (" + NatToString(c.success) + ")",
      "Issues (" + NatToString(c.warning + c.error) + ")" ]
  }

  /** On the shipped records: five matched, two warnings, one error. */
  lemma MockStatusCounts()
    ensures StatusCountsOf(MockMappings) == StatusCounts(5, 2, 1)
  {
  }

  /** What the preview card shows: nothing before processing is complete. */
  datatype Preview = Preview(
    tabLabels: seq<string>,
    allRows: seq<MappingField>,
    noMatchNotice: bool,
    successRows: seq<MappingField>,
    issueRows: seq<MappingField>)

  function RenderPreview(isComplete: bool, searchTerm: string): (p: Option<Preview>)
    ensures p.None? <==> !isComplete
    ensures p.Some? ==> p.value.tabLabels == TabLabels(MockMappings)
    ensures p.Some? ==> p.value.allRows == FilteredMappings(MockMappings, searchTerm)
    ensures p.Some? ==> (p.value.noMatchNotice <==> p.value.allRows == [])
    ensures p.Some? ==> p.value.successRows == SuccessView(p.value.allRows)
    ensures p.Some? ==> p.value.issueRows == IssuesView(p.value.allRows)
  {
    if !isComplete then None
    else
      var rows := FilteredMappings(MockMappings, searchTerm);
      Some(Preview(TabLabels(MockMappings), rows, |rows| == 0, SuccessView(rows), IssuesView(rows)))
  }

  /** The tab labels are taken over the whole list (`RenderPreview` passes
      them no search term), so they always read as follows. */
  lemma MockTabLabels()
    ensures TabLabels(MockMappings) == ["All Mappings (8)", "Matched (5)", "Issues (3)"]
  {
    MockStatusCounts();
    assert |MockMappings| == 8;
    assert NatToString(8) == "8" && NatToString(5) == "5" && NatToString(3) == "3";
    assert "All Mappings (" + "8" + ")" == "All Mappings (8)";
    assert "Matched (" + "5" + ")" == "Matched (5)";
    assert "Issues (" + "3" + ")" == "Issues (3)";
  }
}
