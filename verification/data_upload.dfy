/**
 * The data-source picker: a fixed catalog of ESG data sources, a selection the
 * user toggles entry by entry, and the "Process Sources" action that turns the
 * selection into mock files for the page.
 */
module DataUpload {
  import opened Wrappers
  import opened Text
  import opened Seqs

  datatype SourceType = FileSource | Database | Cloud | Api

  datatype DataSource = DataSource(id: string, name: string, kind: SourceType, description: string)

  /** The catalog, in display order. */
  const DataSources: seq<DataSource> := [
    DataSource("energy-consumption", "Energy Consumption Data", Database, "Annual energy usage by property and type"),
    DataSource("water-usage", "Water Usage Metrics", Cloud, "Quarterly water consumption records"),
    DataSource("waste-management", "Waste Management Reports", FileSource, "Waste disposal and recycling data"),
    DataSource("carbon-footprint", "Carbon Footprint Analysis", Api, "CO2 emissions by facility and activity"),
    DataSource("sustainability-reports", "Sustainability Reports", FileSource, "Annual sustainability PDF reports")
  ]

  /** `sources.find(s => s.id === id)`: the first entry with that id. */
  function FindSource(sources: seq<DataSource>, id: string): (r: Option<DataSource>)
    ensures r.Some? ==> r.value in sources && r.value.id == id
    ensures r.Some? ==>
      exists i :: 0 <= i < |sources| && sources[i] == r.value &&
        (forall j :: 0 <= j < i ==> sources[j].id != id)
    ensures r.None? ==> forall s :: s in sources ==> s.id != id
  {
    if sources == [] then None
    else if sources[0].id == id then Some(sources[0])
    else FindSource(sources[1..], id)
  }

  predicate IsCatalogId(id: string) {
    FindSource(DataSources, id).Some?
  }

  /** No two catalog entries share an id, so an id names one entry. */
  lemma CatalogIdsDistinct()
    ensures forall i, j :: 0 <= i < j < |DataSources| ==> DataSources[i].id != DataSources[j].id
  {
  }

  /** The filter callback `sourceId => sourceId !== id`. */
  function Other(id: string): string -> bool {
    x => x != id
  }

  /** The update `toggleSourceSelection` hands to the state setter: drop every
      copy of a selected id, append one that is not selected. */
  function Toggled(selected: seq<string>, id: string): (r: seq<string>)
    ensures id in r <==> id !in selected
    ensures forall x :: x != id ==> (x in r <==> x in selected)
    ensures id !in selected ==> r == selected + [id]
    ensures id in selected ==> IsSubsequence(r, selected)
  {
    FilterMembers(selected, Other(id));
    FilterIsSubsequence(selected, Other(id));
    if id in selected then Filter(selected, Other(id)) else selected + [id]
  }

  /** Removing an id from a selection without duplicates deletes it in place,
      keeping the other ids in their order. */
  lemma ToggleRemovesInPlace(selected: seq<string>, i: nat)
    requires NoDuplicates(selected) && i < |selected|
    ensures Toggled(selected, selected[i]) == selected[..i] + selected[i + 1..]
  {
    FilterDeletesIndex(selected, Other(selected[i]), i);
  }

  /** Toggling keeps a selection free of duplicates. */
  lemma ToggleKeepsNoDuplicates(selected: seq<string>, id: string)
    requires NoDuplicates(selected)
    ensures NoDuplicates(Toggled(selected, id))
  {
    if id in selected {
      FilterNoDuplicates(selected, Other(id));
    }
  }

  /** The selection after a series of clicks. */
  function ToggleAll(selected: seq<string>, clicks: seq<string>): seq<string>
    decreases |clicks|
  {
    if clicks == [] then selected else ToggleAll(Toggled(selected, clicks[0]), clicks[1..])
  }

  /** Starting from no selection, no sequence of clicks produces a duplicate,
      and only clicked ids are ever selected. */
  lemma {:induction false} ClicksKeepNoDuplicates(selected: seq<string>, clicks: seq<string>)
    requires NoDuplicates(selected)
    ensures NoDuplicates(ToggleAll(selected, clicks))
    ensures forall x :: x in ToggleAll(selected, clicks) ==> x in selected || x in clicks
    decreases |clicks|
  {
    if clicks != [] {
      ToggleKeepsNoDuplicates(selected, clicks[0]);
      ClicksKeepNoDuplicates(Toggled(selected, clicks[0]), clicks[1..]);
    }
  }

  /** Clicking the same source twice restores which ids are selected. The exact
      list comes back when the id was not selected; a selected id instead moves
      to the end. */
  lemma ToggleTwice(selected: seq<string>, id: string)
    ensures forall x :: x in Toggled(Toggled(selected, id), id) <==> x in selected
    ensures id !in selected ==> Toggled(Toggled(selected, id), id) == selected
    ensures id in selected ==>
      Toggled(Toggled(selected, id), id) == Filter(selected, Other(id)) + [id]
  {
    if id !in selected {
      FilterConcat(selected, [id], Other(id));
      FilterKeepsAll(selected, Other(id));
      assert Filter([id], Other(id)) == [];
    }
  }

  const SpreadsheetMime := "application/vnd.openxmlformats-officedocument.spreadsheetml.sheet"

  /** The mock `File` built for a source: its content, name and MIME type. */
  datatype MockFile = MockFile(content: seq<string>, name: string, mimeType: string)

  function Extension(source: DataSource): string {
    if source.kind == FileSource then (if Includes(source.name, "PDF") then "pdf" else "xlsx") else "json"
  }

  function MimeType(source: DataSource): string {
    if source.kind == FileSource then (if Includes(source.name, "PDF") then "application/pdf" else SpreadsheetMime)
    else "application/json"
  }

  function MockFileFor(source: DataSource): MockFile {
    MockFile(["mock content"], source.name + "." + Extension(source), MimeType(source))
  }

  /** The file name is the source name with an extension, and the extension and
      the MIME type agree: PDF for file sources named with "PDF", spreadsheet
      for other file sources, JSON for databases, clouds and APIs. */
  lemma MockFileKind(source: DataSource)
    ensures var f := MockFileFor(source);
      && f.name == source.name + "." + Extension(source)
      && (f.mimeType == "application/pdf" <==> source.kind == FileSource && OccursIn(source.name, "PDF"))
      && (f.mimeType == SpreadsheetMime <==> source.kind == FileSource && !OccursIn(source.name, "PDF"))
      && (f.mimeType == "application/json" <==> source.kind != FileSource)
      && (Extension(source) == "pdf" <==> f.mimeType == "application/pdf")
      && (Extension(source) == "xlsx" <==> f.mimeType == SpreadsheetMime)
      && (Extension(source) == "json" <==> f.mimeType == "application/json")
  {
    IncludesIff(source.name, "PDF");
  }

  /** No catalog name contains "PDF" (the word appears only in a description),
      so neither file source of the catalog, the sustainability reports
      included, is turned into a PDF file: both become spreadsheets. */
  lemma CatalogFileSourcesAreSpreadsheets()
    ensures forall i :: 0 <= i < |DataSources| && DataSources[i].kind == FileSource ==>
      i in {2, 4} && MockFileFor(DataSources[i]).mimeType == SpreadsheetMime
  {
    forall i | 0 <= i < |DataSources| && DataSources[i].kind == FileSource
      ensures MockFileFor(DataSources[i]).mimeType == SpreadsheetMime
    {
      var s := DataSources[i];
      assert 'P' !in s.name;
      SpreadsheetUnlessNamedPdf(s);
    }
  }

  lemma SpreadsheetUnlessNamedPdf(s: DataSource)
    requires s.kind == FileSource && 'P' !in s.name
    ensures MockFileFor(s).mimeType == SpreadsheetMime
  {
    IncludesNeedsFirstChar(s.name, "PDF");
  }

  /** The other three catalog sources become JSON files. */
  lemma CatalogOtherSourcesAreJson()
    ensures forall i :: 0 <= i < |DataSources| && i != 2 && i != 4 ==>
      DataSources[i].kind != FileSource && MockFileFor(DataSources[i]).mimeType == "application/json"
  {
  }

  /** `selectedSources.map(...)` over a catalog: one mock file per selected
      id, in order, built from the first catalog entry with that id. */
  function MockFiles(catalog: seq<DataSource>, selected: seq<string>): (files: seq<MockFile>)
    requires forall id :: id in selected ==> FindSource(catalog, id).Some?
    ensures |files| == |selected|
    ensures forall i :: 0 <= i < |selected| ==>
      exists s :: s in catalog && s.id == selected[i] && files[i] == MockFileFor(s)
    ensures forall i :: 0 <= i < |selected| ==>
      exists k :: 0 <= k < |catalog| && catalog[k].id == selected[i] && files[i] == MockFileFor(catalog[k]) &&
        (forall j :: 0 <= j < k ==> catalog[j].id != selected[i])
  {
    if selected == [] then []
    else
      assert selected[0] in selected;
      var source := FindSource(catalog, selected[0]).value;
      [MockFileFor(source)] + MockFiles(catalog, selected[1..])
  }

  datatype Notice = Notice(title: string, description: string, destructive: bool)

  /** What the picker emits, in order: a call of the page's `onUpload`, or a
      toast. */
  datatype Event = Upload(files: seq<MockFile>) | Toast(notice: Notice)

  const NoSourcesNotice := Notice("No sources selected", "Please select at least one data source to process", true)

  function StartedNotice(count: nat): Notice {
    Notice("Processing started", NatToString(count) + " data source(s) selected for analysis", false)
  }

  class SourcePicker {
    var selectedSources: seq<string>

    /** Ids are only ever added by clicking catalog entries, and toggling never
        duplicates one. */
    ghost predicate Valid()
      reads this
    {
      && NoDuplicates(selectedSources)
      && forall id :: id in selectedSources ==> IsCatalogId(id)
    }

    constructor ()
      ensures Valid() && selectedSources == []
    {
      selectedSources := [];
    }

    /** `toggleSourceSelection`, called from a catalog entry's click handler. */
    method ToggleSourceSelection(id: string)
      requires Valid() && IsCatalogId(id)
      modifies this
      ensures Valid()
      ensures selectedSources == Toggled(old(selectedSources), id)
    {
      ToggleKeepsNoDuplicates(selectedSources, id);
      selectedSources := Toggled(selectedSources, id);
    }

    /** `processSelectedSources`: with nothing selected, one destructive notice
        and no upload; otherwise the upload of one file per selected source, in
        selection order, followed by a notice naming how many were selected. */
    method ProcessSelectedSources() returns (events: seq<Event>)
      requires Valid()
      ensures selectedSources == [] ==> events == [Toast(NoSourcesNotice)]
      ensures selectedSources != [] ==>
        && |events| == 2
        && events[0] == Upload(MockFiles(DataSources, selectedSources))
        && |events[0].files| == |selectedSources|
        && (forall i :: 0 <= i < |selectedSources| ==>
              exists s :: s in DataSources && s.id == selectedSources[i] && events[0].files[i] == MockFileFor(s))
        && events[1] == Toast(StartedNotice(|selectedSources|))
    {
      if |selectedSources| == 0 {
        events := [Toast(NoSourcesNotice)];
        return;
      }
      var files := MockFiles(DataSources, selectedSources);
      events := [Upload(files), Toast(StartedNotice(|selectedSources|))];
    }
  }
}
