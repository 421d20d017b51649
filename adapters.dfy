/** The adapters between the typed resource lists and the formatter's resource view, and the
    fixed column headers of each kind (pkg/output/adapters.go). */
module Adapters {
  import opened Wrappers
  import opened Times
  import Folders
  import Organizations
  import opened Output

  /** Views each folder as a resource: same length, same order, nothing dropped. */
  method FoldersToResources(folderList: seq<Folders.Folder>) returns (resources: seq<Resource>)
    ensures |resources| == |folderList|
    ensures forall i :: 0 <= i < |folderList| ==> resources[i] == FolderResource(folderList[i])
  {
    var items := new Resource[|folderList|];
    for i := 0 to |folderList|
      invariant forall k :: 0 <= k < i ==> items[k] == FolderResource(folderList[k])
    {
      items[i] := FolderResource(folderList[i]);
    }
    resources := items[..];
  }

  /** Views each organization as a resource: same length, same order, nothing dropped. */
  method OrganizationsToResources(organizationList: seq<Organizations.Organization>)
    returns (resources: seq<Resource>)
    ensures |resources| == |organizationList|
    ensures forall i :: 0 <= i < |organizationList| ==>
      resources[i] == OrganizationResource(organizationList[i])
  {
    var items := new Resource[|organizationList|];
    for i := 0 to |organizationList|
      invariant forall k :: 0 <= k < i ==> items[k] == OrganizationResource(organizationList[k])
    {
      items[i] := OrganizationResource(organizationList[i]);
    }
    resources := items[..];
  }

  /** A folder seen as a resource answers every accessor, its row and its JSON object with
      the folder's own. */
  lemma FolderView(f: Folders.Folder)
    ensures var r := FolderResource(f);
      r.GetID() == f.id && r.GetDisplayName() == f.displayName && r.GetState() == f.state &&
      r.GetCreateTime() == f.createTime && r.GetUpdateTime() == f.updateTime &&
      r.TableRow() == f.TableRow() && r.JsonObject() == f.JsonObject()
  {
  }

  /** An organization seen as a resource answers every accessor, its row and its JSON object
      with the organization's own. */
  lemma OrganizationView(o: Organizations.Organization)
    ensures var r := OrganizationResource(o);
      r.GetID() == o.id && r.GetDisplayName() == o.displayName && r.GetState() == o.state &&
      r.GetCreateTime() == o.createTime && r.GetUpdateTime() == o.updateTime &&
      r.TableRow() == o.TableRow() && r.JsonObject() == o.JsonObject()
  {
  }

  function FolderHeaders(): seq<string> {
    ["ID", "Display Name", "Parent", "State", "Create Time", "Update Time"]
  }

  function OrganizationHeaders(): seq<string> {
    ["ID", "Display Name", "State", "Create Time", "Update Time"]
  }

  /** The value a folder shows under a column heading. */
  function FolderColumn(f: Folders.Folder, heading: string): string {
    if heading == "ID" then f.id
    else if heading == "Display Name" then f.displayName
    else if heading == "Parent" then f.parent
    else if heading == "State" then f.state
    else if heading == "Create Time" then FormatLayout(f.createTime)
    else if heading == "Update Time" then FormatLayout(f.updateTime)
    else ""
  }

  /** The value an organization shows under a column heading. */
  function OrganizationColumn(o: Organizations.Organization, heading: string): string {
    if heading == "ID" then o.id
    else if heading == "Display Name" then o.displayName
    else if heading == "State" then o.state
    else if heading == "Create Time" then FormatLayout(o.createTime)
    else if heading == "Update Time" then FormatLayout(o.updateTime)
    else ""
  }

  /** The folder headers are six distinct headings, as wide as every folder row, and each
      row cell is the value named by the heading above it. */
  lemma FolderColumnsAligned(f: Folders.Folder)
    ensures |FolderHeaders()| == |f.TableRow()| == 6
    ensures forall j, k :: 0 <= j < k < 6 ==> FolderHeaders()[j] != FolderHeaders()[k]
    ensures forall k :: 0 <= k < 6 ==> f.TableRow()[k] == FolderColumn(f, FolderHeaders()[k])
  {
  }

  /** The organization headers are five distinct headings, as wide as every organization
      row, and each row cell is the value named by the heading above it. */
  lemma OrganizationColumnsAligned(o: Organizations.Organization)
    ensures |OrganizationHeaders()| == |o.TableRow()| == 5
    ensures forall j, k :: 0 <= j < k < 5 ==> OrganizationHeaders()[j] != OrganizationHeaders()[k]
    ensures forall k :: 0 <= k < 5 ==> o.TableRow()[k] == OrganizationColumn(o, OrganizationHeaders()[k])
  {
  }

  /** Every json key of a folder reads back its own field: the keys are distinct, so the
      first match is the field the struct tag names. */
  lemma FolderJsonKeys(f: Folders.Folder)
    ensures Lookup(f.JsonObject(), "id") == Some(f.id)
    ensures Lookup(f.JsonObject(), "name") == Some(f.name)
    ensures Lookup(f.JsonObject(), "display_name") == Some(f.displayName)
    ensures Lookup(f.JsonObject(), "parent") == Some(f.parent)
    ensures Lookup(f.JsonObject(), "state") == Some(f.state)
    ensures Lookup(f.JsonObject(), "create_time") == Some(FormatRFC3339(f.createTime))
    ensures Lookup(f.JsonObject(), "update_time") == Some(FormatRFC3339(f.updateTime))
  {
    var obj := f.JsonObject();
    assert obj[0].0[0] == 'i' && obj[1].0[0] == 'n' && obj[2].0[0] == 'd' && obj[3].0[0] == 'p';
    assert obj[4].0[0] == 's' && obj[5].0[0] == 'c' && obj[6].0[0] == 'u';
    LookupFirst(obj, "id", 0);
    LookupFirst(obj, "name", 1);
    LookupFirst(obj, "display_name", 2);
    LookupFirst(obj, "parent", 3);
    LookupFirst(obj, "state", 4);
    LookupFirst(obj, "create_time", 5);
    LookupFirst(obj, "update_time", 6);
  }

  /** Every json key of an organization reads back its own field; there is no "parent". */
  lemma OrganizationJsonKeys(o: Organizations.Organization)
    ensures Lookup(o.JsonObject(), "id") == Some(o.id)
    ensures Lookup(o.JsonObject(), "name") == Some(o.name)
    ensures Lookup(o.JsonObject(), "display_name") == Some(o.displayName)
    ensures Lookup(o.JsonObject(), "state") == Some(o.state)
    ensures Lookup(o.JsonObject(), "create_time") == Some(FormatRFC3339(o.createTime))
    ensures Lookup(o.JsonObject(), "update_time") == Some(FormatRFC3339(o.updateTime))
    ensures Lookup(o.JsonObject(), "parent") == None
  {
    var obj := o.JsonObject();
    assert obj[0].0[0] == 'i' && obj[1].0[0] == 'n' && obj[2].0[0] == 'd';
    assert obj[3].0[0] == 's' && obj[4].0[0] == 'c' && obj[5].0[0] == 'u';
    LookupFirst(obj, "id", 0);
    LookupFirst(obj, "name", 1);
    LookupFirst(obj, "display_name", 2);
    LookupFirst(obj, "state", 3);
    LookupFirst(obj, "create_time", 4);
    LookupFirst(obj, "update_time", 5);
    LookupMissing(obj, "parent");
  }
}
