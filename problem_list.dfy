/**
 * The column composer of the problem table: a fixed master list of ten column
 * descriptors, filtered by the panel's display options.
 */
module ProblemList {
  import opened Wrappers
  import opened Triggers

  /**
   * A column's `show` key: left undefined, or set to a boolean. A column is
   * kept when its `show` is true or undefined.
   */
  datatype Show = Unset | Set(on: bool)

  predicate Visible(s: Show) {
    s.Unset? || s.on
  }

  /** The display options, one per optional column; an option may be left unset. */
  datatype PanelOptions = PanelOptions(
    hostField: Show,
    hostTechNameField: Show,
    hostGroups: Show,
    hostProxy: Show,
    severityField: Show,
    statusField: Show,
    showTags: Show)

  /** The formatter a column renders its cells with (the expander for the details column). */
  datatype Renderer = Plain | GroupCells | SeverityCells | StatusCells | ProblemCells | TagCells | Expander

  /** A column descriptor as handed to the table. */
  datatype Column = Column(
    header: string,
    accessor: Option<string>,
    show: Show,
    className: Option<string>,
    width: Option<nat>,
    minWidth: Option<nat>,
    renderer: Renderer)

  /** Pixels per character of the last-change timestamp. */
  const CharWidth: nat := 9
  /** Width of the time column when there is no first row to measure. */
  const DefaultTimeWidth: nat := 160

  /**
   * The time column is as wide as the first problem's last-change timestamp,
   * at nine pixels a character, or 160 pixels when there are no problems.
   */
  function TimeColumnWidth(problems: Option<seq<Trigger>>): nat
  {
    if problems.Some? && |problems.value| > 0 then |problems.value[0].lastchange| * CharWidth
    else DefaultTimeWidth
  }

  /** The master list of columns, in display order, before filtering. */
  function MasterColumns(options: PanelOptions, timeWidth: nat): (cols: seq<Column>)
    ensures |cols| == 10
  {
    [ Column("Host", Some("host"), options.hostField, None, None, None, Plain),
      Column("Host (Technical Name)", Some("hostTechName"), options.hostTechNameField, None, None, None, Plain),
      Column("Host Groups", Some("groups"), options.hostGroups, None, None, None, GroupCells),
      Column("Proxy", Some("proxy"), options.hostProxy, None, None, None, Plain),
      Column("Severity", Some("severity"), options.severityField, Some("problem-severity"), Some(120), None, SeverityCells),
      Column("Status", Some("value"), options.statusField, None, Some(100), None, StatusCells),
      Column("Problem", Some("description"), Unset, None, None, Some(200), ProblemCells),
      Column("Tags", Some("tags"), options.showTags, Some("problem-tags"), None, None, TagCells),
      Column("Time", Some("lastchange"), Unset, Some("last-change"), Some(timeWidth), None, Plain),
      Column("Details", None, Unset, Some("custom-expander"), Some(60), None, Expander) ]
  }

  /** A kept column with its `show` key deleted. */
  function Cleared(c: Column): Column {
    c.(show := Unset)
  }

  /** The columns that are kept, in their original order, each with `show` deleted. */
  function Kept(cols: seq<Column>): seq<Column>
  {
    if cols == [] then []
    else
      var last := cols[|cols| - 1];
      Kept(cols[..|cols| - 1]) + (if Visible(last.show) then [Cleared(last)] else [])
  }

  /** The columns the table shows for these options and problems. */
  function Columns(options: PanelOptions, problems: Option<seq<Trigger>>): seq<Column>
  {
    Kept(MasterColumns(options, TimeColumnWidth(problems)))
  }

  /**
   * Builds the column list: walks the master list, deletes `show` from each
   * column that is kept and appends it to the result.
   */
  method BuildColumns(options: PanelOptions, problems: Option<seq<Trigger>>) returns (result: seq<Column>)
    ensures result == Columns(options, problems)
  {
    result := [];
    var master := MasterColumns(options, TimeColumnWidth(problems));
    var columns := new Column[|master|](i requires 0 <= i < |master| => master[i]);
    var i := 0;
    while i < columns.Length
      invariant 0 <= i <= columns.Length == |master|
      invariant columns[i..] == master[i..]
      invariant result == Kept(master[..i])
    {
      assert master[..i + 1][..i] == master[..i];
      assert columns[i] == master[i];
      if Visible(columns[i].show) {
        columns[i] := Cleared(columns[i]);
        result := result + [columns[i]];
      }
      i := i + 1;
    }
    assert master[..i] == master;
  }

  // ---------------------------------------------------------------------
  // Kept is an order-preserving filter

  /** The positions of the kept columns in the list, in increasing order. */
  ghost function KeptPositions(cols: seq<Column>): seq<nat>
  {
    if cols == [] then []
    else
      KeptPositions(cols[..|cols| - 1]) + (if Visible(cols[|cols| - 1].show) then [|cols| - 1] else [])
  }

  /**
   * The result is the input filtered by visibility: the k-th kept column is the
   * input column at the k-th kept position with `show` deleted, the positions
   * strictly increase (nothing is reordered), and a position is kept exactly
   * when its column is visible.
   */
  lemma {:induction false} KeptIsOrderedFilter(cols: seq<Column>)
    ensures |Kept(cols)| == |KeptPositions(cols)|
    ensures forall k :: 0 <= k < |KeptPositions(cols)| ==>
      KeptPositions(cols)[k] < |cols| && Kept(cols)[k] == Cleared(cols[KeptPositions(cols)[k]])
    ensures forall k, l :: 0 <= k < l < |KeptPositions(cols)| ==> KeptPositions(cols)[k] < KeptPositions(cols)[l]
    ensures forall i :: 0 <= i < |cols| ==> (i in KeptPositions(cols) <==> Visible(cols[i].show))
  {
    if cols != [] {
      var init := cols[..|cols| - 1];
      KeptIsOrderedFilter(init);
      assert forall i :: 0 <= i < |init| ==> init[i] == cols[i];
    }
  }

  /** Every kept column has its `show` key deleted. */
  lemma {:induction false} KeptCleared(cols: seq<Column>)
    ensures forall c :: c in Kept(cols) ==> c.show == Unset
  {
    if cols != [] {
      KeptCleared(cols[..|cols| - 1]);
    }
  }

  /** Filtering distributes over concatenation. */
  lemma {:induction false} KeptAppend(a: seq<Column>, b: seq<Column>)
    ensures Kept(a + b) == Kept(a) + Kept(b)
  {
    if b == [] {
      assert a + b == a;
    } else {
      var b' := b[..|b| - 1];
      KeptAppend(a, b');
      assert (a + b)[..|a + b| - 1] == a + b';
    }
  }

  /** Filtering an already filtered list changes nothing. */
  lemma {:induction false} KeptIdempotent(cols: seq<Column>)
    ensures Kept(Kept(cols)) == Kept(cols)
  {
    if cols != [] {
      var init := cols[..|cols| - 1];
      var last := cols[|cols| - 1];
      var tail := if Visible(last.show) then [Cleared(last)] else [];
      KeptIdempotent(init);
      KeptAppend(Kept(init), tail);
      if Visible(last.show) {
        assert Kept(tail) == Kept([]) + [Cleared(Cleared(last))];
      }
    }
  }

  // ---------------------------------------------------------------------
  // Which columns appear, in which order, with which widths

  /** The header of each column, in order. */
  function Headers(cols: seq<Column>): seq<string>
  {
    seq(|cols|, i requires 0 <= i < |cols| => cols[i].header)
  }

  /** `[header]` when the option keeps its column, nothing otherwise. */
  function Optional(s: Show, header: string): seq<string> {
    if s == Set(false) then [] else [header]
  }

  /** A single column is kept under its own header exactly when its option allows it. */
  lemma KeptOne(c: Column)
    ensures Kept([c]) == if Visible(c.show) then [Cleared(c)] else []
    ensures Headers(Kept([c])) == Optional(c.show, c.header)
  {
    assert [c][..0] == [];
  }

  lemma HeadersAppend(a: seq<Column>, b: seq<Column>)
    ensures Headers(a + b) == Headers(a) + Headers(b)
  {
    assert forall i :: 0 <= i < |a + b| ==> Headers(a + b)[i] == (Headers(a) + Headers(b))[i];
  }

  /** Filtering a list is filtering each of its columns on its own. */
  lemma {:induction false} KeptColumnwise(m: seq<Column>)
    ensures Headers(Kept(m)) == HeadersEach(m)
  {
    if m != [] {
      KeptColumnwise(m[1..]);
      assert m == [m[0]] + m[1..];
      KeptAppend([m[0]], m[1..]);
      HeadersAppend(Kept([m[0]]), Kept(m[1..]));
      KeptOne(m[0]);
    }
  }

  /** Each column's header, when its option allows it, in order. */
  function HeadersEach(m: seq<Column>): seq<string>
  {
    if m == [] then [] else Optional(m[0].show, m[0].header) + HeadersEach(m[1..])
  }

  /**
   * The headers of the table, left to right: each optional column exactly when
   * its option is not set to false, in the master order, with Problem, Time and
   * Details always present.
   */
  lemma ColumnHeaders(options: PanelOptions, problems: Option<seq<Trigger>>)
    ensures Headers(Columns(options, problems)) ==
      Optional(options.hostField, "Host")
      + Optional(options.hostTechNameField, "Host (Technical Name)")
      + Optional(options.hostGroups, "Host Groups")
      + Optional(options.hostProxy, "Proxy")
      + Optional(options.severityField, "Severity")
      + Optional(options.statusField, "Status")
      + ["Problem"]
      + Optional(options.showTags, "Tags")
      + ["Time", "Details"]
  {
    var m := MasterColumns(options, TimeColumnWidth(problems));
    KeptColumnwise(m);
    MasterHeaders(options, TimeColumnWidth(problems));
  }

  /** The master list's headers, each when its option allows it. */
  lemma MasterHeaders(options: PanelOptions, timeWidth: nat)
    ensures HeadersEach(MasterColumns(options, timeWidth)) ==
      Optional(options.hostField, "Host")
      + Optional(options.hostTechNameField, "Host (Technical Name)")
      + Optional(options.hostGroups, "Host Groups")
      + Optional(options.hostProxy, "Proxy")
      + Optional(options.severityField, "Severity")
      + Optional(options.statusField, "Status")
      + ["Problem"]
      + Optional(options.showTags, "Tags")
      + ["Time", "Details"]
  {
    var m := MasterColumns(options, timeWidth);
    HeadersEachTen(m);
  }

  /** HeadersEach unrolled over a list of ten columns. */
  lemma HeadersEachTen(m: seq<Column>)
    requires |m| == 10
    ensures HeadersEach(m) ==
      Optional(m[0].show, m[0].header) + Optional(m[1].show, m[1].header)
      + Optional(m[2].show, m[2].header) + Optional(m[3].show, m[3].header)
      + Optional(m[4].show, m[4].header) + Optional(m[5].show, m[5].header)
      + Optional(m[6].show, m[6].header) + Optional(m[7].show, m[7].header)
      + Optional(m[8].show, m[8].header) + Optional(m[9].show, m[9].header)
  {
    var o0 := Optional(m[0].show, m[0].header);
    var o1 := Optional(m[1].show, m[1].header);
    var o2 := Optional(m[2].show, m[2].header);
    var o3 := Optional(m[3].show, m[3].header);
    var o4 := Optional(m[4].show, m[4].header);
    var o5 := Optional(m[5].show, m[5].header);
    var o6 := Optional(m[6].show, m[6].header);
    var o7 := Optional(m[7].show, m[7].header);
    var o8 := Optional(m[8].show, m[8].header);
    var o9 := Optional(m[9].show, m[9].header);
    assert m[0..] == m;
    HeadersEachStep(m, 0, []);
    HeadersEachStep(m, 1, o0);
    HeadersEachStep(m, 2, o0 + o1);
    HeadersEachStep(m, 3, o0 + o1 + o2);
    HeadersEachStep(m, 4, o0 + o1 + o2 + o3);
    HeadersEachStep(m, 5, o0 + o1 + o2 + o3 + o4);
    HeadersEachStep(m, 6, o0 + o1 + o2 + o3 + o4 + o5);
    HeadersEachStep(m, 7, o0 + o1 + o2 + o3 + o4 + o5 + o6);
    HeadersEachStep(m, 8, o0 + o1 + o2 + o3 + o4 + o5 + o6 + o7);
    HeadersEachStep(m, 9, o0 + o1 + o2 + o3 + o4 + o5 + o6 + o7 + o8);
    assert m[10..] == [];
  }

  /** One more column of the unrolling. */
  lemma HeadersEachStep(m: seq<Column>, k: nat, done: seq<string>)
    requires k < |m|
    requires HeadersEach(m) == done + HeadersEach(m[k..])
    ensures HeadersEach(m) == (done + Optional(m[k].show, m[k].header)) + HeadersEach(m[k + 1..])
  {
    var rest := m[k..];
    assert rest[0] == m[k] && rest[1..] == m[k + 1..];
    var o := Optional(m[k].show, m[k].header);
    assert HeadersEach(rest) == o + HeadersEach(m[k + 1..]);
    assert done + (o + HeadersEach(m[k + 1..])) == (done + o) + HeadersEach(m[k + 1..]);
  }

  /** The fixed widths of the table's columns, given the time column's width. */
  predicate WidthRule(c: Column, timeWidth: nat) {
    && (c.header == "Time" ==> c.width == Some(timeWidth))
    && (c.header == "Severity" ==> c.width == Some(120))
    && (c.header == "Status" ==> c.width == Some(100))
    && (c.header == "Details" ==> c.width == Some(60))
    && (c.header == "Problem" ==> c.width == None && c.minWidth == Some(200))
  }

  /** Every column of the master list follows the width rule. */
  lemma MasterWidths(options: PanelOptions, timeWidth: nat)
    ensures forall i :: 0 <= i < 10 ==> WidthRule(MasterColumns(options, timeWidth)[i], timeWidth)
  {
    var m := MasterColumns(options, timeWidth);
    forall i | 0 <= i < 10
      ensures WidthRule(m[i], timeWidth)
    {
    }
  }

  /** Each kept column is some input column with its `show` key deleted. */
  lemma {:induction false} KeptFrom(cols: seq<Column>)
    ensures forall c :: c in Kept(cols) ==> exists i :: 0 <= i < |cols| && c == Cleared(cols[i])
  {
    if cols != [] {
      var init := cols[..|cols| - 1];
      KeptFrom(init);
      assert forall i :: 0 <= i < |init| ==> init[i] == cols[i];
    }
  }

  /**
   * Every column in the result has its `show` key deleted; the time column is
   * nine pixels per character of the first problem's last-change timestamp, or
   * 160 pixels without problems; severity, status and details keep their fixed
   * widths and the problem column its minimum width.
   */
  lemma ColumnWidths(options: PanelOptions, problems: Option<seq<Trigger>>)
    ensures forall c :: c in Columns(options, problems) ==> c.show == Unset
    ensures forall c :: c in Columns(options, problems) && c.header == "Time" ==>
      c.width == Some(if problems.Some? && |problems.value| > 0 then 9 * |problems.value[0].lastchange| else 160)
    ensures forall c :: c in Columns(options, problems) && c.header == "Severity" ==> c.width == Some(120)
    ensures forall c :: c in Columns(options, problems) && c.header == "Status" ==> c.width == Some(100)
    ensures forall c :: c in Columns(options, problems) && c.header == "Details" ==> c.width == Some(60)
    ensures forall c :: c in Columns(options, problems) && c.header == "Problem" ==>
      c.width == None && c.minWidth == Some(200)
  {
    var w := TimeColumnWidth(problems);
    var m := MasterColumns(options, w);
    KeptFrom(m);
    KeptCleared(m);
    MasterWidths(options, w);
    forall c | c in Columns(options, problems)
      ensures WidthRule(c, w)
    {
      var i :| 0 <= i < |m| && c == Cleared(m[i]);
      assert WidthRule(m[i], w);
    }
  }

  /** Only the first problem's timestamp length matters to the column list. */
  lemma ColumnsDependOnFirstTimestamp(options: PanelOptions, p: seq<Trigger>, q: seq<Trigger>)
    requires |p| > 0 && |q| > 0 && |p[0].lastchange| == |q[0].lastchange|
    ensures Columns(options, Some(p)) == Columns(options, Some(q))
  {
  }
}
