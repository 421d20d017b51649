/** The wire records the Cloud Resource Manager API delivers (resourcemanagerpb.Folder and
    resourcemanagerpb.Organization), reduced to the fields the core reads. A record that may
    be a nil pointer is an Option; an unset timestamp field is None. */
module Wire {
  import opened Wrappers
  import opened Strings
  import Times

  newtype Int32 = x: int | -0x8000_0000 <= x < 0x8000_0000

  const StateUnspecified: Int32 := 0
  const StateActive: Int32 := 1
  const StateDeleteRequested: Int32 := 2

  /** The label of a Folder.State / Organization.State value, as its String() method gives
      it: the declared name for a declared number, the decimal number otherwise. */
  function StateLabel(n: Int32): string {
    if n == StateUnspecified then "STATE_UNSPECIFIED"
    else if n == StateActive then "ACTIVE"
    else if n == StateDeleteRequested then "DELETE_REQUESTED"
    else IntToString(n as int)
  }

  /** The state number a label names, if it names one. */
  function StateFromLabel(s: string): Option<Int32> {
    if s == "STATE_UNSPECIFIED" then Some(StateUnspecified)
    else if s == "ACTIVE" then Some(StateActive)
    else if s == "DELETE_REQUESTED" then Some(StateDeleteRequested)
    else if s != [] && s[0] != '-' && AllDigits(s) && ParseDigits(s) < 0x8000_0000 then
      Some(ParseDigits(s) as Int32)
    else if |s| > 1 && s[0] == '-' && AllDigits(s[1..]) && ParseDigits(s[1..]) <= 0x8000_0000 then
      Some((0 - ParseDigits(s[1..])) as Int32)
    else None
  }

  /** A state label identifies its number: the label is passed on unvalidated, yet no two
      numbers share one. */
  lemma StateLabelRoundTrip(n: Int32)
    ensures StateFromLabel(StateLabel(n)) == Some(n)
  {
    if n != StateUnspecified && n != StateActive && n != StateDeleteRequested {
      var s := IntToString(n as int);
      IntToStringRoundTrip(n as int);
      NumberIsNoName(s);
      if s[0] == '-' {
        assert ParseDigits(s[1..]) == -(n as int);
      } else {
        assert ParseDigits(s) == n as int;
      }
    }
  }

  /** A decimal rendering, signed or not, is none of the declared names: those begin with a
      letter. */
  lemma NumberIsNoName(s: string)
    requires s != [] && (s[0] == '-' || IsDigit(s[0]))
    ensures s != "STATE_UNSPECIFIED" && s != "ACTIVE" && s != "DELETE_REQUESTED"
  {
    assert "STATE_UNSPECIFIED"[0] == 'S' && "ACTIVE"[0] == 'A' && "DELETE_REQUESTED"[0] == 'D';
  }

  datatype FolderPb = FolderPb(
    name: string,
    parent: string,
    displayName: string,
    state: Int32,
    createTime: Option<Times.Time>,
    updateTime: Option<Times.Time>)

  datatype OrganizationPb = OrganizationPb(
    name: string,
    displayName: string,
    state: Int32,
    createTime: Option<Times.Time>,
    updateTime: Option<Times.Time>)
}
