/** The organization resource (pkg/organizations/types.go): the internal record, its
    conversion from the wire record, its accessors and its table row. */
module Organizations {
  import opened Wrappers
  import opened Strings
  import opened Times
  import opened Wire

  /** A Google Cloud organization: a folder's fields without the parent. */
  datatype Organization = Organization(
    id: string,
    name: string,
    displayName: string,
    state: string,
    createTime: Time,
    updateTime: Time)
  {
    function GetID(): string { id }
    function GetDisplayName(): string { displayName }
    function GetState(): string { state }
    function GetCreateTime(): Time { createTime }
    function GetUpdateTime(): Time { updateTime }

    /** The organization as a table row: five display values, no parent column. */
    function TableRow(): seq<string> {
      [id, displayName, state, FormatLayout(createTime), FormatLayout(updateTime)]
    }

    /** The JSON object the encoder writes for the organization, as (key, value) pairs. */
    function JsonObject(): seq<(string, string)> {
      [("id", id), ("name", name), ("display_name", displayName), ("state", state),
       ("create_time", FormatRFC3339(createTime)), ("update_time", FormatRFC3339(updateTime))]
    }
  }

  /** Each accessor returns its field unchanged. */
  lemma Getters(o: Organization)
    ensures o.GetID() == o.id && o.GetDisplayName() == o.displayName && o.GetState() == o.state
    ensures o.GetCreateTime() == o.createTime && o.GetUpdateTime() == o.updateTime
  {
  }

  /** A zero timestamp shows as the zero instant's rendering in both time columns. */
  lemma ZeroTimesInRow(o: Organization)
    requires o.createTime == Zero && o.updateTime == Zero
    ensures o.TableRow()[3] == "0001-01-01 00:00:00" && o.TableRow()[4] == "0001-01-01 00:00:00"
  {
    ZeroRendering();
  }

  const OrgPrefix := "organizations/"

  /** Converts a wire organization into an Organization; a nil input gives a nil result,
      not an error. */
  method OrganizationFromProto(pb: Option<OrganizationPb>) returns (org: Option<Organization>)
    ensures org.None? <==> pb.None?
    ensures pb.Some? ==>
      var o, p := org.value, pb.value;
      && o.name == p.name
      && (HasPrefix(o.name, OrgPrefix) ==> OrgPrefix + o.id == o.name)
      && (!HasPrefix(o.name, OrgPrefix) ==> o.id == o.name)
      && o.displayName == p.displayName
      && o.state == StateLabel(p.state)
      && StateFromLabel(o.state) == Some(p.state)
      && o.createTime == (if p.createTime.Some? then p.createTime.value else Zero)
      && o.updateTime == (if p.updateTime.Some? then p.updateTime.value else Zero)
  {
    if pb == None {
      return None;
    }

    var p := pb.value;
    var o := Organization(
      id := TrimPrefix(p.name, OrgPrefix),
      name := p.name,
      displayName := p.displayName,
      state := StateLabel(p.state),
      createTime := Zero,
      updateTime := Zero);

    if p.createTime != None {
      o := o.(createTime := p.createTime.value);
    }

    if p.updateTime != None {
      o := o.(updateTime := p.updateTime.value);
    }

    StateLabelRoundTrip(p.state);
    org := Some(o);
  }
}
