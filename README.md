# gcphelper: resource-to-output pipeline, modelled in Dafny

gcphelper is a command-line client for the Google Cloud Resource Manager API that lists
organizations and folders. This project models the part between the API's answer and the
terminal:

- the conversion of wire records (`resourcemanagerpb.Folder`, `resourcemanagerpb.Organization`)
  into the internal `Folder` and `Organization` records;
- their accessors and fixed-width table rows, with timestamps in the layout
  `YYYY-MM-DD hh:mm:ss`;
- the adapters that turn a typed list into the formatter's `Resource` view, and the fixed
  column headers of each kind;
- the `Formatter`, which writes a resource list as a table, JSON, CSV or bare IDs to a data
  stream, and writes "No … found." messages to a diagnostic stream.

Files and modules:

| file | module | models |
|---|---|---|
| wrappers.dfy | `Wrappers` | `Option`, for nil pointers and unset fields |
| seqs.dfy | `Seqs` | element-wise mapping of a sequence, the shape of every per-resource list |
| strings.dfy | `Strings` | prefix stripping, decimal rendering (padded and signed), splitting text into lines |
| times.dfy | `Times` | instants as UTC fields, the zero instant, the row layout and its parse-back, the RFC 3339 form |
| wire.dfy | `Wire` | the wire records and the state enum's label |
| folders.dfy | `Folders` | pkg/folders/types.go |
| organizations.dfy | `Organizations` | pkg/organizations/types.go |
| formatter.dfy | `Output` | pkg/output/formatter.go |
| adapters.dfy | `Adapters` | pkg/output/adapters.go |
| scenarios.dfy | `Scenarios` | concrete cases taken from the repository's tests |

How the model is built:

- **Resources are values.** `Folder` and `Organization` are datatypes, because nothing mutates
  a record once it is built. Each conversion is an imperative method: it builds the record,
  then sets each timestamp that is present, as the Go code does.
- **The `Resource` interface is a datatype** with one variant per kind. Its accessors dispatch
  on the variant, in place of Go's dynamic dispatch.
- **Nil wire records.** A nil wire folder is read through nil-safe accessors. These return
  empty strings, state 0 and no timestamps. So `FolderFromProto(nil)` yields a folder with
  state `"STATE_UNSPECIFIED"` and zero times. `OrganizationFromProto(nil)` returns nil.
- **The enum label** is the declared name of a state number. For an undeclared number it is
  the number in decimal. `Wire.StateLabelRoundTrip` proves that the label identifies the
  number.
- **The `Formatter` is a class.**
  - `verbose` and `resourceType` are constant fields.
  - `data` holds the writes to the data writer, as `Chunk`s. A `Chunk` is one of: a line
    written by `Fprintln`; a rendered table (header row, rows, optional caption); a rendered
    CSV document (header row, rows); a JSON array (one object of key/value pairs per resource).
  - `diag` holds the lines written to standard error.
  - Each format method is proved against a pure function of its inputs: `TableOutcome`,
    `CsvOutcome`, `JsonOutcome`, `IdOutcome`, and `FormatOutcome` for the dispatch. The
    lemmas in `Output` state the format rules about those functions.
- **The table caption** goes into the table chunk on the data stream, as in the source.
- **Time layouts are lists of chunks.** Go's `Time.Format` walks its layout one chunk at a
  time: a numeric field with its zero-padded width, literal text, or the zone. `Times` models a
  layout the same way, as a sequence of `LayoutElem`. The rendering is the chunks' texts in
  order. `Times.RowLayoutText` and `Times.RFC3339Text` write out what the two layouts give.
- **Per-resource lists** (the table and CSV rows, the JSON objects, the "id" lines) are
  `Seqs.Map` of a per-resource function. The loops that build them carry the invariant that
  the list built so far is the map of the prefix visited so far.

## Model

| member | source | states |
|---|---|---|
| Strings.TrimPrefix | pkg/folders/types.go:37 | if the name starts with the prefix, prefix + result is the name; otherwise the result is the name unchanged (never an error) |
| Times.LayoutRoundTrip | pkg/folders/types.go:87-88 | for an instant with a year in 0..9999, `YYYY-MM-DD hh:mm:ss` is 19 characters and parses back to the same instant |
| Times.LayoutInjective | pkg/organizations/types.go:78-79 | two such instants with the same rendering are equal, so the time columns lose nothing |
| Times.RowLayoutText | pkg/folders/types.go:87-88 | the layout "2006-01-02 15:04:05" writes the year in 4 digits, then month, day, hour, minute and second in 2 digits each, with '-', ' ' and ':' between them |
| Times.RFC3339Text | pkg/folders/types.go:18-19 | the JSON form of a time is the same six zero-padded fields with 'T' between date and clock, followed by "Z" for UTC |
| Strings.FixedWidth | pkg/folders/types.go:87-88 | a value that fits in the field width renders as exactly that many digits and reads back as the value |
| Times.ZeroRendering | pkg/folders/types.go:44-50 | the zero instant renders as "0001-01-01 00:00:00" (and as "0001-01-01T00:00:00Z" in JSON), not as a placeholder |
| Wire.StateLabelRoundTrip | pkg/folders/types.go:41 | the state label passed through unvalidated still identifies the wire state number |
| Folders.FolderFromProto | pkg/folders/types.go:35-53 | ID is the name with a leading "folders/" removed, else the name; name, display name and parent are copied; state is the enum label; an absent timestamp stays zero and a present one is copied; a nil input still yields a record (`STATE_UNSPECIFIED`, empty strings, zero times) |
| Folders.Getters | pkg/folders/types.go:55-78 | each accessor returns its field unchanged |
| Folders.ZeroTimesInRow | pkg/folders/types.go:81-90 | a folder with zero times shows "0001-01-01 00:00:00" in both time columns of its row |
| Folders.NewFetchOptions | pkg/folders/types.go:27-30 | default fetch options have an empty parent |
| Organizations.OrganizationFromProto | pkg/organizations/types.go:24-45 | a nil input gives nil and a non-nil input gives a record; ID is the name with a leading "organizations/" removed, else the name; name and display name are copied; state is the enum label; absent timestamps stay zero and present ones are copied |
| Organizations.Getters | pkg/organizations/types.go:47-70 | each accessor returns its field unchanged |
| Organizations.ZeroTimesInRow | pkg/organizations/types.go:72-81 | an organization with zero times shows "0001-01-01 00:00:00" in both time columns of its row |
| Adapters.FoldersToResources | pkg/output/adapters.go:9-16 | same length as the input, nothing dropped or reordered; element i is the view of folder i |
| Adapters.FolderView | pkg/output/adapters.go:12 | a folder stored as a resource answers every accessor, its table row and its JSON object with the folder's own |
| Adapters.OrganizationsToResources | pkg/output/adapters.go:19-26 | same length as the input, no filtering or deduplication; element i is the view of organization i |
| Adapters.OrganizationView | pkg/output/adapters.go:22 | an organization stored as a resource answers every accessor, its table row and its JSON object with the organization's own |
| Adapters.FolderJsonKeys | pkg/folders/types.go:13-19 | each json key of a folder (id, name, display_name, parent, state, create_time, update_time) reads back the field its struct tag names, the times in RFC 3339 form |
| Adapters.OrganizationJsonKeys | pkg/organizations/types.go:15-20 | each json key of an organization reads back the field its struct tag names, and there is no "parent" key |
| Adapters.FolderColumnsAligned | pkg/output/adapters.go:29-31 | the folder headers are ID, Display Name, Parent, State, Create Time, Update Time; they are six distinct headings, as many as the cells of every folder row; cell k holds the value its heading names (pkg/folders/types.go:81-90) |
| Adapters.OrganizationColumnsAligned | pkg/output/adapters.go:34-36 | the organization headers are five distinct headings, as many as the cells of every organization row (no parent column); cell k holds the value its heading names (pkg/organizations/types.go:73-81) |
| Output.UnsupportedFormat | pkg/output/formatter.go:62-75 | an error happens exactly when the selector is not exactly "table", "json", "csv" or "id"; the error wraps "unsupported output format", its text contains the selector, and neither stream is written |
| Output.IdFormat | pkg/output/formatter.go:158-162 | "id" on a non-empty list writes one line `GetID() + "\n"` per resource, in input order, and nothing to the diagnostic stream |
| Output.IdTextSplitsBack | pkg/output/formatter.go:147-165 | splitting the "id" data text at newlines gives back the identifiers in order, when no identifier contains a newline |
| Output.EmptyTableOrId | pkg/output/formatter.go:88-99 | "table" or "id" on an empty list writes no data; if verbose, exactly "No {type} found.\n" goes to the diagnostic stream, otherwise nothing does |
| Output.DefaultLabel | pkg/output/formatter.go:91-94 | an empty resource type behaves exactly like "resources", in the not-found message and in the caption |
| Output.TableFormat | pkg/output/formatter.go:101-124 | "table" on a non-empty list renders the header row, then one row per resource from `TableRow()`, in order; the caption "Total {type}: {n}" (n = number of resources) is on the data stream and present exactly when verbose |
| Output.CaptionCount | pkg/output/formatter.go:120 | the number in the caption reads back as the number of resources |
| Output.CsvFormat | pkg/output/formatter.go:127-145 | "csv" always writes the header row, even for an empty list, then one row per resource in order; verbosity and resource type change nothing |
| Output.JsonFormat | pkg/output/formatter.go:77-86 | "json" writes one array with one object per resource, in order; each object's "id" is that resource's `GetID()`; an empty list is `[]`; verbosity changes nothing |
| Output.StreamSeparation | pkg/output/formatter.go:88-99 | the diagnostic stream is written only for an empty list in verbose "table" or "id" mode, and then with one "No {type} found." line and no data |
| Output.HeaderRow | pkg/output/formatter.go:105-109 | the header row copies the headers in order |
| Output.AppendRows | pkg/output/formatter.go:111-113 | the rows are the resources' `TableRow()`s, one per resource, in input order |
| Output.Formatter.NewFormatterWithType | pkg/output/formatter.go:49-59 | the formatter keeps the verbosity and resource type it is given, and both streams start empty |
| Output.Formatter.Format | pkg/output/formatter.go:62-75 | the returned error and what is appended to each stream are exactly those of `FormatOutcome` |
| Output.Formatter.WriteJSON | pkg/output/formatter.go:77-86 | appends the JSON array of the resources to the data stream; the diagnostic stream is unchanged |
| Output.Formatter.WriteTable | pkg/output/formatter.go:88-125 | appends to the streams exactly what `TableOutcome` gives |
| Output.Formatter.WriteCSV | pkg/output/formatter.go:127-145 | appends the CSV render of headers and rows to the data stream; the diagnostic stream is unchanged |
| Output.Formatter.WriteIDs | pkg/output/formatter.go:147-165 | appends exactly what `IdOutcome` gives: the not-found message for an empty verbose list, otherwise one line per identifier in order |
| Scenarios.TwoFolderIds | cmd/folders_test.go:81-103 | two folders in "id" format give exactly "123456789\n987654321\n" on the data stream and nothing on the diagnostic stream |
| Scenarios.EmptyOrganizationTable | cmd/organizations_test.go:170-175 | an empty verbose organization table writes no data and exactly "No organizations found.\n" to the diagnostic stream |
| Scenarios.OneOrganizationCsv | cmd/organizations_test.go:252-283 | one organization as CSV gives the organization headers and the row 123456789, Test Organization, ACTIVE, 2023-01-01 00:00:00, 2023-06-01 00:00:00 |
| Scenarios.OneOrganizationVerboseTable | cmd/organizations_test.go:197-216 | a verbose table of one organization carries the caption "Total organizations: 1" and writes nothing to the diagnostic stream |
| Scenarios.ConvertFolders | pkg/folders/types_test.go:30-82 | a full wire folder converts to the expected record; one without timestamps converts with state "DELETE_REQUESTED" and zero times |
| Scenarios.ConvertOrganizations | pkg/organizations/types_test.go:13-62 | the organization test's three conversions: one with both 2023 timestamps, one without timestamps (zero times), and a nil one (nil) |
| Scenarios.FolderIdsEndToEnd | cmd/folders.go:110-114 | a folder list goes through the adapter and the "id" format with no error, writing one line per folder, its ID and a newline, in input order |
| Scenarios.LayoutOf2023 | cmd/organizations_test.go:192-193 | midnight on the first of a month (1 to 9) of 2023 renders as "2023-0m-01 00:00:00" |
| Scenarios.InvalidSelector | pkg/output/formatter_test.go:208-216 | the selector "invalid" is rejected with "unsupported output format: invalid" and no output |

## Left out

- **Network fetchers and services.** pkg/folders/fetcher.go, pkg/organizations/fetcher.go and the service wrappers are remote API calls, iterators, a spinner and logging. They are not part of this model. The model starts from the lists they return.
- **Command layer, logging and main.** cmd/*.go, internal/logger and main.go are not part of this model. That covers flag wiring, the stdout/stderr plumbing, gRPC-status error handling, and the construction of the parent prefix (cmd/folders.go:87-97).
- **Concrete renderers.** The model does not render the table's borders, the upper-casing of headers, CSV quoting, or JSON escaping and indentation. Those belong to go-pretty and encoding/json, which are not part of this model. Table and CSV output is modelled as the header row plus ordered rows, and JSON as an array with one object per resource.
- **Writer failures and the nil-writer fallback.** The write errors ("failed to encode JSON", "failed to write resource ID") and the switch to os.Stdout for a nil writer are I/O. So the formatter's `data` stream is a value that starts empty. `Output.Formatter.NewFormatterWithType` has no writer parameter.
- **Time zones and sub-second precision.** Timestamps are UTC instants with whole seconds. Nanoseconds and the fractional part of RFC 3339 JSON times are not modelled.
- **JSON failure on years outside 0..9999.** Go's time encoder refuses such years. The model renders every year.
- **Nil elements in a typed list.** The typed lists are sequences of records, so an element can never be nil. In Go it can: `OrganizationFromProto` returns nil for a nil wire record, and the fetcher appends that result unchecked (pkg/organizations/fetcher.go:55). `OrganizationsToResources` then stores a non-nil `Resource` that wraps a nil pointer. On such an element, "id", "table" and "csv" would crash in `GetID`/`TableRow`, and "json" would write `null`. The model does not represent this case.
- **A nil resource slice.** The adapters always build a non-nil slice, so JSON never encodes `null`. Dafny sequences have no nil.
- **Aliasing.** The Go adapters store the same pointers they receive. Here, element i of the result equals input i as a value. Records are never mutated after construction, so equality carries the same information.
- **Wire record fields the core never reads** (etag, delete time) are not modelled.
- **The header lists carry no contract of their own**, since each is a literal. Their contents and order are stated by the two column-alignment lemmas in `Adapters`.
