/** Concrete end-to-end cases of the pipeline: conversion, adaptation and formatting of
    small resource lists, stated as what the specifications above imply. */
module Scenarios {
  import opened Wrappers
  import opened Strings
  import opened Times
  import opened Wire
  import opened Folders
  import opened Organizations
  import opened Output
  import opened Adapters

  /** Two folders in "id" format: the data stream is "123456789\n987654321\n" and the
      diagnostic stream is empty. */
  lemma TwoFolderIds(created: Time, updated: Time)
    ensures var f1 := Folder("123456789", "folders/123456789", "Test Folder 1", "organizations/987654321",
                             "ACTIVE", created, updated);
            var f2 := Folder("987654321", "folders/987654321", "Test Folder 2", "organizations/987654321",
                             "ACTIVE", created, updated);
            var o := FormatOutcome(false, "folders", [FolderResource(f1), FolderResource(f2)], FormatID, []);
      o.err == None && o.diag == [] &&
      (forall i :: 0 <= i < |o.data| ==> o.data[i].Line?) &&
      WrittenText(o.data) == "123456789\n987654321\n"
  {
    var f1 := Folder("123456789", "folders/123456789", "Test Folder 1", "organizations/987654321",
                     "ACTIVE", created, updated);
    var f2 := Folder("987654321", "folders/987654321", "Test Folder 2", "organizations/987654321",
                     "ACTIVE", created, updated);
    var rs := [FolderResource(f1), FolderResource(f2)];
    var o := FormatOutcome(false, "folders", rs, FormatID, []);
    assert o == IdOutcome(false, "folders", rs);
    FolderView(f1);
    FolderView(f2);
    assert o.data == [Line("123456789" + "\n"), Line("987654321" + "\n")];
    WrittenTwoLines("123456789" + "\n", "987654321" + "\n");
    TwoIdsText();
  }

  /** Two lines written in order give their concatenation. */
  lemma WrittenTwoLines(a: string, b: string)
    ensures WrittenText([Line(a), Line(b)]) == a + b
  {
    assert [Line(a), Line(b)][1..] == [Line(b)];
    assert WrittenText([Line(b)]) == b + WrittenText([]);
  }

  /** The two identifier lines of the folder test, run together. */
  lemma TwoIdsText()
    ensures "123456789" + "\n" + ("987654321" + "\n") == "123456789\n987654321\n"
  {
  }

  /** An empty organization list as a verbose table: no data, one "No organizations found."
      line on the diagnostic stream. */
  lemma EmptyOrganizationTable()
    ensures FormatOutcome(true, "organizations", [], FormatTable, OrganizationHeaders())
         == Outcome(None, [], ["No organizations found.\n"])
  {
    assert NotFoundMessage(Label("organizations")) == "No organizations found.\n";
  }

  /** One organization as CSV: the organization headers, then its row with both times in the
      row layout. */
  lemma OneOrganizationCsv()
    ensures
      var org := Organization("123456789", "organizations/123456789", "Test Organization", "ACTIVE",
                              Time(2023, 1, 1, 0, 0, 0), Time(2023, 6, 1, 0, 0, 0));
      FormatOutcome(false, "organizations", [OrganizationResource(org)], FormatCSV, OrganizationHeaders())
      == Outcome(None, [Csv(["ID", "Display Name", "State", "Create Time", "Update Time"],
                            [["123456789", "Test Organization", "ACTIVE",
                              "2023-01-01 00:00:00", "2023-06-01 00:00:00"]])], [])
  {
    Dates2023();
    var org := Organization("123456789", "organizations/123456789", "Test Organization", "ACTIVE",
                            Time(2023, 1, 1, 0, 0, 0), Time(2023, 6, 1, 0, 0, 0));
    var rs := [OrganizationResource(org)];
    var row := ["123456789", "Test Organization", "ACTIVE", "2023-01-01 00:00:00", "2023-06-01 00:00:00"];
    OrganizationView(org);
    assert Rows(rs) == [row];
    assert FormatOutcome(false, "organizations", rs, FormatCSV, OrganizationHeaders())
        == CsvOutcome(rs, OrganizationHeaders());
  }

  /** The row renderings of the two 2023 instants the organization test uses. */
  lemma Dates2023()
    ensures FormatLayout(Time(2023, 1, 1, 0, 0, 0)) == "2023-01-01 00:00:00"
    ensures FormatLayout(Time(2023, 6, 1, 0, 0, 0)) == "2023-06-01 00:00:00"
  {
    LayoutOf2023(1);
    LayoutOf2023(6);
    assert DigitChar(1) == '1' && DigitChar(6) == '6';
  }

  /** The row rendering of midnight on the first of a month in 2023 (month < 10). */
  lemma LayoutOf2023(month: nat)
    requires 1 <= month <= 9
    ensures FormatLayout(Time(2023, month, 1, 0, 0, 0))
         == "2023-0" + [DigitChar(month)] + "-01 00:00:00"
  {
    RowLayoutText(Time(2023, month, 1, 0, 0, 0));
    OneDigitField(month);
    ZeroFields();
    Year2023();
    Text2023(DigitChar(month));
  }

  /** The year 2023 needs no padding in the four-digit field. */
  lemma Year2023()
    ensures AppendInt(2023, 4) == "2023"
  {
    assert Digits(2) == "2";
    assert Digits(20) == Digits(2) + "0";
    assert Digits(202) == Digits(20) + "2";
    assert Digits(2023) == Digits(202) + "3";
  }

  /** The padded fields of midnight on the first of a month in 2023, joined by the row
      layout's separators. */
  lemma Text2023(c: char)
    ensures "2023" + "-" + ("0" + [c]) + "-" + "01" + " " + "00" + ":" + "00" + ":" + "00"
         == "2023-0" + [c] + "-01 00:00:00"
  {
  }

  /** One organization as a verbose table: the caption reads "Total organizations: 1". */
  lemma OneOrganizationVerboseTable(org: Organization)
    ensures var o := FormatOutcome(true, "organizations", [OrganizationResource(org)], FormatTable,
                                   OrganizationHeaders());
      o.diag == [] && o.data[0].Table? && o.data[0].caption == Some("Total organizations: 1")
  {
    var rs := [OrganizationResource(org)];
    assert FormatOutcome(true, "organizations", rs, FormatTable, OrganizationHeaders())
        == TableOutcome(true, "organizations", rs, OrganizationHeaders());
    CaptionOfOne();
  }

  /** The caption for one organization. */
  lemma CaptionOfOne()
    ensures CaptionText(Label("organizations"), 1) == "Total organizations: 1"
  {
    assert IntToString(1) == "1";
  }

  /** The selector "invalid" is rejected with "unsupported output format: invalid". */
  lemma InvalidSelector(resources: seq<Resource>, verbose: bool)
    ensures FormatOutcome(verbose, "", resources, "invalid", ["ID"])
         == Outcome(Some(UnsupportedOutputFormat("invalid")), [], [])
    ensures UnsupportedOutputFormat("invalid").Error() == "unsupported output format: invalid"
  {
  }

  /** Conversion of a full wire folder and of one without timestamps: the prefix is
      stripped from the ID, the state becomes its label, and absent times stay zero. */
  method ConvertFolders(created: Time, updated: Time) returns (full: Folder, minimal: Folder)
    ensures full == Folder("123456789", "folders/123456789", "Test Folder", "organizations/987654321",
                           "ACTIVE", created, updated)
    ensures minimal == Folder("123456789", "folders/123456789", "Test Folder", "organizations/987654321",
                              "DELETE_REQUESTED", Zero, Zero)
  {
    assert HasPrefix("folders/123456789", FolderPrefix);
    full := FolderFromProto(Some(FolderPb("folders/123456789", "organizations/987654321", "Test Folder",
                                          StateActive, Some(created), Some(updated))));
    minimal := FolderFromProto(Some(FolderPb("folders/123456789", "organizations/987654321", "Test Folder",
                                             StateDeleteRequested, None, None)));
  }

  /** Conversion of a wire organization with both timestamps, of one without timestamps,
      and of a nil one. */
  method ConvertOrganizations() returns (dated: Option<Organization>, undated: Option<Organization>,
                                         none: Option<Organization>)
    ensures dated == Some(Organization("123456789", "organizations/123456789", "Test Organization", "ACTIVE",
                                       Time(2023, 1, 1, 0, 0, 0), Time(2023, 6, 1, 0, 0, 0)))
    ensures undated == Some(Organization("987654321", "organizations/987654321", "Test Organization 2",
                                         "DELETE_REQUESTED", Zero, Zero))
    ensures none == None
  {
    assert HasPrefix("organizations/123456789", OrgPrefix);
    assert HasPrefix("organizations/987654321", OrgPrefix);
    dated := OrganizationFromProto(Some(OrganizationPb("organizations/123456789", "Test Organization",
                                                       StateActive, Some(Time(2023, 1, 1, 0, 0, 0)),
                                                       Some(Time(2023, 6, 1, 0, 0, 0)))));
    undated := OrganizationFromProto(Some(OrganizationPb("organizations/987654321", "Test Organization 2",
                                                         StateDeleteRequested, None, None)));
    none := OrganizationFromProto(None);
  }

  /** A folder list goes through the adapter and the "id" format: one line per folder, its
      ID and a newline, in input order, and no error. */
  method FolderIdsEndToEnd(folderList: seq<Folder>) returns (err: Option<FormatError>, written: seq<Chunk>)
    ensures err == None
    ensures |written| == |folderList|
    ensures forall i :: 0 <= i < |folderList| ==> written[i] == Line(folderList[i].id + "\n")
  {
    var resources := FoldersToResources(folderList);
    var formatter := new Formatter.NewFormatterWithType(false, "folders");
    err := formatter.Format(resources, FormatID, []);
    assert FormatOutcome(false, "folders", resources, FormatID, []) == IdOutcome(false, "folders", resources);
    written := formatter.data;
    FolderIdLines(folderList, resources);
  }

  /** The "id" lines of the folders' resource views are the folders' own IDs. */
  lemma FolderIdLines(folderList: seq<Folder>, resources: seq<Resource>)
    requires |resources| == |folderList|
    requires forall i :: 0 <= i < |folderList| ==> resources[i] == FolderResource(folderList[i])
    ensures |IdLines(resources)| == |folderList|
    ensures forall i :: 0 <= i < |folderList| ==> IdLines(resources)[i] == Line(folderList[i].id + "\n")
  {
  }
}
