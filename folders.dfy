/** The folder resource (pkg/folders/types.go): the internal record, its conversion from the
    wire record, its accessors, its table row and the fetch options. */
module Folders {
  import opened Wrappers
  import opened Strings
  import opened Times
  import opened Wire

  /** A Google Cloud folder. Field order is the struct's, which is also the order of the
      JSON object keys (json tags: id, name, display_name, parent, state, create_time,
      update_time). */
  datatype Folder = Folder(
    id: string,
    name: string,
    displayName: string,
    parent: string,
    state: string,
    createTime: Time,
    updateTime: Time)
  {
    function GetID(): string { id }
    function GetDisplayName(): string { displayName }
    function GetState(): string { state }
    function GetCreateTime(): Time { createTime }
    function GetUpdateTime(): Time { updateTime }

    /** The folder as a table row: six display values, times in the row layout. */
    function TableRow(): seq<string> {
      [id, displayName, parent, state, FormatLayout(createTime), FormatLayout(updateTime)]
    }

    /** The JSON object the encoder writes for the folder, as (key, value) pairs in order. */
    function JsonObject(): seq<(string, string)> {
      [("id", id), ("name", name), ("display_name", displayName), ("parent", parent),
       ("state", state), ("create_time", FormatRFC3339(createTime)),
       ("update_time", FormatRFC3339(updateTime))]
    }
  }

  /** Each accessor returns its field unchanged. */
  lemma Getters(f: Folder)
    ensures f.GetID() == f.id && f.GetDisplayName() == f.displayName && f.GetState() == f.state
    ensures f.GetCreateTime() == f.createTime && f.GetUpdateTime() == f.updateTime
  {
  }

  /** A zero timestamp shows as the zero instant's rendering in both time columns. */
  lemma ZeroTimesInRow(f: Folder)
    requires f.createTime == Zero && f.updateTime == Zero
    ensures f.TableRow()[4] == "0001-01-01 00:00:00" && f.TableRow()[5] == "0001-01-01 00:00:00"
  {
    ZeroRendering();
  }

  datatype FetchOptions = FetchOptions(parent: string)

  /** Default fetch options: no parent filter. */
  function NewFetchOptions(): (opts: FetchOptions)
    ensures opts.parent == ""
  {
    FetchOptions("")
  }

  const FolderPrefix := "folders/"

  // The wire record's accessors answer for a nil record too, with the field defaults.

  function PbName(pb: Option<FolderPb>): string { if pb.Some? then pb.value.name else "" }
  function PbDisplayName(pb: Option<FolderPb>): string { if pb.Some? then pb.value.displayName else "" }
  function PbParent(pb: Option<FolderPb>): string { if pb.Some? then pb.value.parent else "" }
  function PbState(pb: Option<FolderPb>): Int32 { if pb.Some? then pb.value.state else StateUnspecified }
  function PbCreateTime(pb: Option<FolderPb>): Option<Time> { if pb.Some? then pb.value.createTime else None }
  function PbUpdateTime(pb: Option<FolderPb>): Option<Time> { if pb.Some? then pb.value.updateTime else None }

  /** Converts a wire folder into a Folder. There is no nil branch: a nil input reads as an
      empty record and still yields a folder. */
  method FolderFromProto(pb: Option<FolderPb>) returns (folder: Folder)
    ensures folder.name == PbName(pb)
    ensures HasPrefix(folder.name, FolderPrefix) ==> FolderPrefix + folder.id == folder.name
    ensures !HasPrefix(folder.name, FolderPrefix) ==> folder.id == folder.name
    ensures folder.displayName == PbDisplayName(pb) && folder.parent == PbParent(pb)
    ensures folder.state == StateLabel(PbState(pb))
    ensures StateFromLabel(folder.state) == Some(PbState(pb))
    ensures folder.createTime == (if PbCreateTime(pb).Some? then PbCreateTime(pb).value else Zero)
    ensures folder.updateTime == (if PbUpdateTime(pb).Some? then PbUpdateTime(pb).value else Zero)
    ensures pb.None? ==> folder == Folder("", "", "", "", "STATE_UNSPECIFIED", Zero, Zero)
  {
    folder := Folder(
      id := TrimPrefix(PbName(pb), FolderPrefix),
      name := PbName(pb),
      displayName := PbDisplayName(pb),
      parent := PbParent(pb),
      state := StateLabel(PbState(pb)),
      createTime := Zero,
      updateTime := Zero);

    if PbCreateTime(pb) != None {
      folder := folder.(createTime := PbCreateTime(pb).value);
    }

    if PbUpdateTime(pb) != None {
      folder := folder.(updateTime := PbUpdateTime(pb).value);
    }

    StateLabelRoundTrip(PbState(pb));
  }
}
