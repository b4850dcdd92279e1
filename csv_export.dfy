/** The comma-separated rows both export buttons write: a fixed header
    and one line per subscription, fields joined by commas with no quoting. */
module CsvExport {
  import opened Text
  import opened Subscriptions

  const HeaderFields: seq<string> := ["Service", "Status", "Monthly Cost", "Next Billing", "Category", "Shared"]

  /** The header line: the six column titles joined by commas, which
      splitting at the commas gives back. */
  function HeaderLine(): (h: string)
    ensures h == "Service,Status,Monthly Cost,Next Billing,Category,Shared"
    ensures Split(h, ',') == HeaderFields
  {
    var f := HeaderFields;
    assert forall i :: 0 <= i < |f| ==> Free(f[i], ',');
    SplitJoinEmptyPad(f, ',');
    HeaderText();
    Join(f, ",")
  }

  lemma HeaderText()
    ensures Join(HeaderFields, ",") == "Service,Status,Monthly Cost,Next Billing,Category,Shared"
  {
    var f := HeaderFields;
    HeaderTail();
    assert f[1..][1..] == f[2..] && f[2..][1..] == f[3..];
    assert Join(f, ",") == "Service" + "," + ("Status" + "," + ("Monthly Cost" + "," + Join(f[3..], ",")));
    HeaderConcat();
  }

  lemma HeaderTail()
    ensures Join(HeaderFields[3..], ",") == "Next Billing,Category,Shared"
  {
    var f := HeaderFields;
    assert Join(f[5..], ",") == "Shared";
    assert Join(f[4..], ",") == "Category,Shared" by { assert f[4..][1..] == f[5..]; }
    assert f[3..][1..] == f[4..];
  }

  lemma HeaderConcat()
    ensures "Service" + "," + ("Status" + "," + ("Monthly Cost" + "," + "Next Billing,Category,Shared"))
         == "Service,Status,Monthly Cost,Next Billing,Category,Shared"
  {
    HeaderPrefix("Next Billing,Category,Shared");
    assert "Service,Status,Monthly Cost," + "Next Billing,Category,Shared"
        == "Service,Status,Monthly Cost,Next Billing,Category,Shared";
  }

  lemma HeaderPrefix(x: string)
    ensures "Service" + "," + ("Status" + "," + ("Monthly Cost" + "," + x)) == "Service,Status,Monthly Cost," + x
  {
    assert "Service" + "," + ("Status" + "," + ("Monthly Cost" + "," + x))
        == ("Service" + "," + "Status" + "," + "Monthly Cost" + ",") + x;
  }

  /** The status as the record stores it. */
  function StatusText(st: Status): (r: string)
    ensures r == "active" <==> st == Active
    ensures r == "paused" <==> st == Paused
  {
    match st
    case Active => "active"
    case Paused => "paused"
  }

  /** The six fields of a subscription's line: the cost to two decimals,
      and "Yes" or "No" for sharing. */
  function RowFields(s: Sub): (r: seq<string>)
    ensures |r| == |HeaderFields|
    ensures r[0] == s.service && r[1] == StatusText(s.status) && r[3] == s.nextBilling && r[4] == s.category
    ensures r[2] == FormatCents(s.monthlyCost)
    ensures r[5] == "Yes" <==> s.shared
    ensures r[5] == "No" <==> !s.shared
  {
    [s.service, StatusText(s.status), FormatCents(s.monthlyCost), s.nextBilling, s.category,
     if s.shared then "Yes" else "No"]
  }

  /** A subscription's line. Nothing is quoted, so the line splits back
      into its fields, and stays one line, only when the fields allow it. */
  function Row(s: Sub): (r: string)
    ensures (forall i :: 0 <= i < |RowFields(s)| ==> Free(RowFields(s)[i], ',')) ==> Split(r, ',') == RowFields(s)
    ensures (forall i :: 0 <= i < |RowFields(s)| ==> Free(RowFields(s)[i], '\n')) ==> Free(r, '\n')
  {
    var fields := RowFields(s);
    JoinSplitsBack(fields, ',');
    JoinKeepsFree(fields, '\n');
    Join(fields, ",")
  }

  lemma JoinSplitsBack(fields: seq<string>, c: char)
    ensures fields != [] && (forall i :: 0 <= i < |fields| ==> Free(fields[i], c)) ==> Split(Join(fields, [c]), c) == fields
  {
    if fields != [] && forall i :: 0 <= i < |fields| ==> Free(fields[i], c) {
      SplitJoinEmptyPad(fields, c);
    }
  }

  lemma JoinKeepsFree(fields: seq<string>, c: char)
    requires c != ','
    ensures (forall i :: 0 <= i < |fields| ==> Free(fields[i], c)) ==> Free(Join(fields, ","), c)
  {
    if forall i :: 0 <= i < |fields| ==> Free(fields[i], c) {
      JoinFree(fields, ",", c);
    }
  }

  /** One line per subscription, in list order. */
  function RecordLines(subs: seq<Sub>): (r: seq<string>)
    ensures |r| == |subs|
    ensures forall i :: 0 <= i < |subs| ==> r[i] == Row(subs[i])
  {
    if subs == [] then [] else [Row(subs[0])] + RecordLines(subs[1..])
  }

  /** Splitting a line at its commas gives the six fields back, as long as
      the free-text fields hold no comma: nothing is quoted or escaped. */
  lemma RowRoundTrip(s: Sub)
    requires Free(s.service, ',') && Free(s.nextBilling, ',') && Free(s.category, ',')
    ensures Split(Row(s), ',') == RowFields(s)
    ensures |Split(Row(s), ',')| == |HeaderFields|
  {
    var fields := RowFields(s);
    CostFree(s.monthlyCost, ',');
    assert forall i :: 0 <= i < |fields| ==> Free(fields[i], ',');
  }

  /** The downloaded file: the lines joined by line feeds. */
  function FileText(lines: seq<string>): string {
    Join(lines, "\n")
  }

  /** Splitting the file at its line feeds gives the lines back when no
      line holds a line feed. */
  lemma FileRoundTrip(lines: seq<string>)
    requires lines != []
    requires forall i :: 0 <= i < |lines| ==> Free(lines[i], '\n')
    ensures Split(FileText(lines), '\n') == lines
  {
    SplitJoinEmptyPad(lines, '\n');
  }

  /** No field of a line holds a line feed, so neither does the line. */
  lemma RowSingleLine(s: Sub)
    requires Free(s.service, '\n') && Free(s.nextBilling, '\n') && Free(s.category, '\n')
    ensures Free(Row(s), '\n')
  {
    var fields := RowFields(s);
    CostFree(s.monthlyCost, '\n');
    assert forall i :: 0 <= i < |fields| ==> Free(fields[i], '\n');
  }

  lemma HeaderSingleLine()
    ensures Free(HeaderLine(), '\n')
  {
    var f := HeaderFields;
    assert forall i :: 0 <= i < |f| ==> Free(f[i], '\n');
    JoinFree(f, ",", '\n');
  }

  /** An amount holds only digits, a sign and a point. */
  lemma CostFree(cents: int, c: char)
    requires !IsDigit(c) && c != '-' && c != '.'
    ensures Free(FormatCents(cents), c)
  {
    var r := FormatCents(cents);
    forall i | 0 <= i < |r| ensures r[i] != c {
      assert IsDigit(r[i]) || r[i] == '-' || r[i] == '.';
    }
  }
}
