/** The output formatter (pkg/output/formatter.go): the resource view the formatter sees,
    the four output formats, and the Formatter object that writes to a data stream and a
    diagnostic stream.

    The concrete renderers are not modelled character by character: a table render is the
    header row, the rows in order and an optional caption; a CSV render is the header row and
    the rows in order; a JSON encoding is an array holding one object per resource. A line
    written with Fprintln is its text including the final newline. */
module Output {
  import opened Wrappers
  import opened Strings
  import opened Seqs
  import Times
  import Folders
  import Organizations

  const ErrUnsupportedOutputFormat := "unsupported output format"
  const DefaultResourceType := "resources"

  const FormatTable := "table"
  const FormatJSON := "json"
  const FormatCSV := "csv"
  const FormatID := "id"

  predicate IsSupported(format: string) {
    format == FormatTable || format == FormatJSON || format == FormatCSV || format == FormatID
  }

  /** The view of a resource the formatter works with, whatever its kind. */
  datatype Resource =
    | FolderResource(folder: Folders.Folder)
    | OrganizationResource(organization: Organizations.Organization)
  {
    function GetID(): string {
      match this
      case FolderResource(f) => f.GetID()
      case OrganizationResource(o) => o.GetID()
    }

    function GetDisplayName(): string {
      match this
      case FolderResource(f) => f.GetDisplayName()
      case OrganizationResource(o) => o.GetDisplayName()
    }

    function GetState(): string {
      match this
      case FolderResource(f) => f.GetState()
      case OrganizationResource(o) => o.GetState()
    }

    function GetCreateTime(): Times.Time {
      match this
      case FolderResource(f) => f.GetCreateTime()
      case OrganizationResource(o) => o.GetCreateTime()
    }

    function GetUpdateTime(): Times.Time {
      match this
      case FolderResource(f) => f.GetUpdateTime()
      case OrganizationResource(o) => o.GetUpdateTime()
    }

    function TableRow(): seq<string> {
      match this
      case FolderResource(f) => f.TableRow()
      case OrganizationResource(o) => o.TableRow()
    }

    function JsonObject(): seq<(string, string)> {
      match this
      case FolderResource(f) => f.JsonObject()
      case OrganizationResource(o) => o.JsonObject()
    }
  }

  /** The error Format returns; it wraps ErrUnsupportedOutputFormat. */
  datatype FormatError = UnsupportedOutputFormat(format: string) {
    function Error(): string {
      ErrUnsupportedOutputFormat + ": " + format
    }
  }

  /** One write to the data stream. */
  datatype Chunk =
    | Line(text: string)
    | Table(header: seq<string>, rows: seq<seq<string>>, caption: Option<string>)
    | Csv(header: seq<string>, rows: seq<seq<string>>)
    | Json(elements: seq<seq<(string, string)>>)

  /** What one Format call returns and appends to the two streams. */
  datatype Outcome = Outcome(err: Option<FormatError>, data: seq<Chunk>, diag: seq<string>)

  // ---------------------------------------------------------------------------
  // What each format writes

  /** The name used in messages; an empty resource type reads as "resources". */
  function Label(resourceType: string): string {
    if resourceType == "" then DefaultResourceType else resourceType
  }

  function NotFoundMessage(name: string): string {
    "No " + name + " found.\n"
  }

  function CaptionText(name: string, n: nat): string {
    "Total " + name + ": " + IntToString(n)
  }

  function RowOf(r: Resource): seq<string> {
    r.TableRow()
  }

  function Rows(resources: seq<Resource>): seq<seq<string>> {
    Map(RowOf, resources)
  }

  function ObjectOf(r: Resource): seq<(string, string)> {
    r.JsonObject()
  }

  function JsonArray(resources: seq<Resource>): seq<seq<(string, string)>> {
    Map(ObjectOf, resources)
  }

  /** What Fprintln writes for one resource in "id" mode. */
  function IdLine(r: Resource): Chunk {
    Line(r.GetID() + "\n")
  }

  function IdLines(resources: seq<Resource>): seq<Chunk> {
    Map(IdLine, resources)
  }

  function TableOutcome(verbose: bool, resourceType: string, resources: seq<Resource>,
                        headers: seq<string>): Outcome {
    if |resources| == 0 then
      Outcome(None, [], if verbose then [NotFoundMessage(Label(resourceType))] else [])
    else
      var caption := if verbose then Some(CaptionText(Label(resourceType), |resources|)) else None;
      Outcome(None, [Table(headers, Rows(resources), caption)], [])
  }

  function CsvOutcome(resources: seq<Resource>, headers: seq<string>): Outcome {
    Outcome(None, [Csv(headers, Rows(resources))], [])
  }

  function JsonOutcome(resources: seq<Resource>): Outcome {
    Outcome(None, [Json(JsonArray(resources))], [])
  }

  function IdOutcome(verbose: bool, resourceType: string, resources: seq<Resource>): Outcome {
    if |resources| == 0 && verbose then
      Outcome(None, [], [NotFoundMessage(Label(resourceType))])
    else
      Outcome(None, IdLines(resources), [])
  }

  /** The effect of Format: dispatch on the exact selector text. */
  function FormatOutcome(verbose: bool, resourceType: string, resources: seq<Resource>,
                         format: string, headers: seq<string>): Outcome {
    if format == FormatJSON then JsonOutcome(resources)
    else if format == FormatCSV then CsvOutcome(resources, headers)
    else if format == FormatTable then TableOutcome(verbose, resourceType, resources, headers)
    else if format == FormatID then IdOutcome(verbose, resourceType, resources)
    else Outcome(Some(UnsupportedOutputFormat(format)), [], [])
  }

  /** The text a run of Fprintln writes, in order. */
  function WrittenText(chunks: seq<Chunk>): string
    requires forall i :: 0 <= i < |chunks| ==> chunks[i].Line?
  {
    if chunks == [] then "" else chunks[0].text + WrittenText(chunks[1..])
  }

  /** The value stored under `key` in a JSON object, the first one if repeated. */
  function Lookup(obj: seq<(string, string)>, key: string): Option<string> {
    if obj == [] then None else if obj[0].0 == key then Some(obj[0].1) else Lookup(obj[1..], key)
  }

  /** The first entry carrying `key` is the one Lookup finds. */
  lemma {:induction false} LookupFirst(obj: seq<(string, string)>, key: string, i: nat)
    requires i < |obj| && obj[i].0 == key
    requires forall j :: 0 <= j < i ==> obj[j].0 != key
    ensures Lookup(obj, key) == Some(obj[i].1)
  {
    if i > 0 {
      LookupFirst(obj[1..], key, i - 1);
    }
  }

  /** A key carried by no entry is not found. */
  lemma {:induction false} LookupMissing(obj: seq<(string, string)>, key: string)
    requires forall j :: 0 <= j < |obj| ==> obj[j].0 != key
    ensures Lookup(obj, key) == None
  {
    if obj != [] {
      LookupMissing(obj[1..], key);
    }
  }

  // ---------------------------------------------------------------------------
  // Properties of the formats

  /** Exactly the four selectors are accepted. Any other selector is an error that wraps
      "unsupported output format" and names the selector, and nothing is written. */
  lemma UnsupportedFormat(verbose: bool, resourceType: string, resources: seq<Resource>,
                          format: string, headers: seq<string>)
    ensures var o := FormatOutcome(verbose, resourceType, resources, format, headers);
      (o.err.Some? <==> !IsSupported(format)) &&
      (o.err.Some? ==> o.err.value == UnsupportedOutputFormat(format) && o.data == [] && o.diag == [] &&
                       Contains(o.err.value.Error(), ErrUnsupportedOutputFormat) &&
                       Contains(o.err.value.Error(), format))
  {
    if !IsSupported(format) {
      var e := UnsupportedOutputFormat(format).Error();
      ContainsPieces("", ErrUnsupportedOutputFormat, ": " + format);
      assert "" + ErrUnsupportedOutputFormat + (": " + format) == e;
      ContainsPieces(ErrUnsupportedOutputFormat + ": ", format, "");
      assert ErrUnsupportedOutputFormat + ": " + format + "" == e;
    }
  }

  /** "id" writes each identifier on its own line, in input order, and nothing to the
      diagnostic stream; splitting the data text at newlines gives the identifiers back. */
  lemma IdFormat(verbose: bool, resourceType: string, resources: seq<Resource>, headers: seq<string>)
    requires |resources| > 0
    ensures var o := FormatOutcome(verbose, resourceType, resources, FormatID, headers);
      o.err == None && o.diag == [] && |o.data| == |resources| &&
      forall i :: 0 <= i < |resources| ==> o.data[i] == Line(resources[i].GetID() + "\n")
  {
  }

  /** The data stream of "id" is the identifiers written one per line: reading its lines back
      gives the identifiers in order (when none contains a newline). */
  lemma {:induction false} IdTextSplitsBack(verbose: bool, resourceType: string,
                                            resources: seq<Resource>, headers: seq<string>)
    requires forall i :: 0 <= i < |resources| ==> '\n' !in resources[i].GetID()
    ensures var o := FormatOutcome(verbose, resourceType, resources, FormatID, headers);
      (forall i :: 0 <= i < |o.data| ==> o.data[i].Line?) &&
      Lines(WrittenText(o.data)) == seq(|resources|, i requires 0 <= i < |resources| => resources[i].GetID())
  {
    var ids := seq(|resources|, i requires 0 <= i < |resources| => resources[i].GetID());
    var chunks := IdLines(resources);
    var lines := seq(|ids|, i requires 0 <= i < |ids| => ids[i] + "\n");
    WrittenTextOfLines(chunks, lines);
    LinesOfTerminated(ids);
  }

  lemma {:induction false} WrittenTextOfLines(chunks: seq<Chunk>, lines: seq<string>)
    requires |chunks| == |lines|
    requires forall i :: 0 <= i < |chunks| ==> chunks[i] == Line(lines[i])
    ensures WrittenText(chunks) == Concat(lines)
  {
    if chunks != [] {
      WrittenTextOfLines(chunks[1..], lines[1..]);
    }
  }

  /** An empty list in "table" or "id" writes no data; the diagnostic stream gets exactly
      one "No {type} found." line when verbose and nothing otherwise. */
  lemma EmptyTableOrId(verbose: bool, resourceType: string, format: string, headers: seq<string>)
    requires format == FormatTable || format == FormatID
    ensures var o := FormatOutcome(verbose, resourceType, [], format, headers);
      o.err == None && o.data == [] &&
      o.diag == (if verbose then ["No " + Label(resourceType) + " found.\n"] else [])
  {
  }

  /** An empty resource type behaves exactly like "resources", in messages and captions. */
  lemma DefaultLabel(verbose: bool, resources: seq<Resource>, format: string, headers: seq<string>)
    ensures Label("") == "resources"
    ensures FormatOutcome(verbose, "", resources, format, headers)
         == FormatOutcome(verbose, DefaultResourceType, resources, format, headers)
  {
  }

  /** "table" on a non-empty list renders the header row and one row per resource in input
      order; the caption "Total {type}: {n}" is part of the table on the data stream, present
      exactly when verbose, and the diagnostic stream stays empty. */
  lemma TableFormat(verbose: bool, resourceType: string, resources: seq<Resource>, headers: seq<string>)
    requires |resources| > 0
    ensures var o := FormatOutcome(verbose, resourceType, resources, FormatTable, headers);
      o.err == None && o.diag == [] && |o.data| == 1 && o.data[0].Table? &&
      o.data[0].header == headers &&
      |o.data[0].rows| == |resources| &&
      (forall i :: 0 <= i < |resources| ==> o.data[0].rows[i] == resources[i].TableRow()) &&
      (o.data[0].caption.Some? <==> verbose) &&
      (verbose ==> o.data[0].caption.value == "Total " + Label(resourceType) + ": " + IntToString(|resources|))
  {
  }

  /** The number in the table caption reads back as the number of resources. */
  lemma CaptionCount(name: string, n: nat)
    ensures var c := CaptionText(name, n);
      var k := |"Total " + name + ": "|;
      |c| > k && AllDigits(c[k..]) && ParseInt(c[k..]) == n
  {
    IntToStringRoundTrip(n);
    var prefix := "Total " + name + ": ";
    assert CaptionText(name, n)[|prefix|..] == IntToString(n);
  }

  /** "csv" always writes the header row, even for an empty list, then one row per resource in
      order; verbosity and the resource type have no effect. */
  lemma CsvFormat(verbose: bool, resourceType: string, resources: seq<Resource>, headers: seq<string>,
                  verbose': bool, resourceType': string)
    ensures var o := FormatOutcome(verbose, resourceType, resources, FormatCSV, headers);
      o.err == None && o.diag == [] && |o.data| == 1 && o.data[0].Csv? &&
      o.data[0].header == headers &&
      |o.data[0].rows| == |resources| &&
      (forall i :: 0 <= i < |resources| ==> o.data[0].rows[i] == resources[i].TableRow()) &&
      o == FormatOutcome(verbose', resourceType', resources, FormatCSV, headers)
  {
  }

  /** "json" writes one array with one object per resource, in order, whose "id" member is the
      resource's identifier; an empty list is the empty array. Verbosity has no effect. */
  lemma JsonFormat(verbose: bool, resourceType: string, resources: seq<Resource>, headers: seq<string>)
    ensures var o := FormatOutcome(verbose, resourceType, resources, FormatJSON, headers);
      o.err == None && o.diag == [] && |o.data| == 1 && o.data[0].Json? &&
      |o.data[0].elements| == |resources| &&
      (forall i :: 0 <= i < |resources| ==> Lookup(o.data[0].elements[i], "id") == Some(resources[i].GetID())) &&
      (resources == [] ==> o.data == [Json([])]) &&
      o == FormatOutcome(!verbose, resourceType, resources, FormatJSON, headers)
  {
  }

  /** The diagnostic stream is written only for an empty list in verbose "table" or "id" mode,
      and then with a single "No {type} found." line while the data stream stays empty. */
  lemma StreamSeparation(verbose: bool, resourceType: string, resources: seq<Resource>,
                         format: string, headers: seq<string>)
    ensures var o := FormatOutcome(verbose, resourceType, resources, format, headers);
      (o.diag != [] <==> verbose && resources == [] && (format == FormatTable || format == FormatID)) &&
      (o.diag != [] ==> o.diag == [NotFoundMessage(Label(resourceType))] && o.data == [])
  {
  }

  // ---------------------------------------------------------------------------
  // Building the table writer's rows

  /** Copies the headers into the table's header row. */
  method HeaderRow(headers: seq<string>) returns (row: seq<string>)
    ensures row == headers
  {
    var cells := new string[|headers|];
    for i := 0 to |headers|
      invariant forall k :: 0 <= k < i ==> cells[k] == headers[k]
    {
      cells[i] := headers[i];
    }
    row := cells[..];
  }

  /** Appends one row per resource, in order. */
  method AppendRows(resources: seq<Resource>) returns (rows: seq<seq<string>>)
    ensures rows == Rows(resources)
    ensures |rows| == |resources|
    ensures forall i :: 0 <= i < |resources| ==> rows[i] == resources[i].TableRow()
  {
    rows := [];
    for i := 0 to |resources|
      invariant rows == Rows(resources[..i])
    {
      MapSnoc(RowOf, resources, i);
      rows := rows + [resources[i].TableRow()];
    }
    assert resources[..|resources|] == resources;
  }

  // ---------------------------------------------------------------------------
  // The formatter

  class Formatter {
    const verbose: bool
    const resourceType: string
    /** Everything written to the data writer, in order. */
    var data: seq<Chunk>
    /** Everything written to the diagnostic stream (standard error), in order. */
    var diag: seq<string>

    constructor NewFormatterWithType(verbose: bool, resourceType: string)
      ensures this.verbose == verbose && this.resourceType == resourceType
      ensures data == [] && diag == []
    {
      this.verbose := verbose;
      this.resourceType := resourceType;
      data := [];
      diag := [];
    }

    /** Writes the resources in the selected format, or rejects the selector before
        anything is written. */
    method Format(resources: seq<Resource>, format: string, headers: seq<string>)
      returns (err: Option<FormatError>)
      modifies this
      ensures var o := FormatOutcome(verbose, resourceType, resources, format, headers);
        err == o.err && data == old(data) + o.data && diag == old(diag) + o.diag
    {
      if format == FormatJSON {
        WriteJSON(resources);
        err := None;
      } else if format == FormatCSV {
        WriteCSV(resources, headers);
        err := None;
      } else if format == FormatTable {
        WriteTable(resources, headers);
        err := None;
      } else if format == FormatID {
        WriteIDs(resources);
        err := None;
      } else {
        err := Some(UnsupportedOutputFormat(format));
      }
    }

    method WriteJSON(resources: seq<Resource>)
      modifies this
      ensures data == old(data) + JsonOutcome(resources).data && diag == old(diag)
    {
      data := data + [Json(JsonArray(resources))];
    }

    method WriteTable(resources: seq<Resource>, headers: seq<string>)
      modifies this
      ensures var o := TableOutcome(verbose, resourceType, resources, headers);
        data == old(data) + o.data && diag == old(diag) + o.diag
    {
      if |resources| == 0 {
        if verbose {
          var name := resourceType;
          if name == "" {
            name := "resources";
          }
          diag := diag + [NotFoundMessage(name)];
        }
        return;
      }

      var headerRow := HeaderRow(headers);
      var rows := AppendRows(resources);
      assert rows == Rows(resources);
      var caption := None;
      if verbose {
        var name := resourceType;
        if name == "" {
          name := DefaultResourceType;
        }
        caption := Some(CaptionText(name, |resources|));
      }
      data := data + [Table(headerRow, rows, caption)];
    }

    method WriteCSV(resources: seq<Resource>, headers: seq<string>)
      modifies this
      ensures data == old(data) + CsvOutcome(resources, headers).data && diag == old(diag)
    {
      var headerRow := HeaderRow(headers);
      var rows := AppendRows(resources);
      assert rows == Rows(resources);
      data := data + [Csv(headerRow, rows)];
    }

    method WriteIDs(resources: seq<Resource>)
      modifies this
      ensures var o := IdOutcome(verbose, resourceType, resources);
        data == old(data) + o.data && diag == old(diag) + o.diag
    {
      if |resources| == 0 && verbose {
        var name := resourceType;
        if name == "" {
          name := DefaultResourceType;
        }
        diag := diag + [NotFoundMessage(name)];
        return;
      }

      for i := 0 to |resources|
        invariant data == old(data) + IdLines(resources[..i])
        invariant diag == old(diag)
      {
        MapSnoc(IdLine, resources, i);
        data := data + [Line(resources[i].GetID() + "\n")];
      }
      assert resources[..|resources|] == resources;
    }
  }
}
