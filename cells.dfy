/**
 * The cell formatters of the problem table, restated as data: each maps the
 * field values of one row to what the cell shows, without the markup.
 */
module Cells {
  import opened Wrappers
  import opened Triggers

  const DefaultOkColor: string := "rgb(56, 189, 113)"
  const DefaultProblemColor: string := "rgb(215, 0, 0)"

  /** The text of a status cell and the colour it is drawn in. */
  datatype StatusView = StatusView(status: string, color: string)

  /**
   * The status cell: status code "0" reads "OK" in the ok colour, any other
   * code reads "PROBLEM" in the problem colour.
   */
  function StatusCell(value: string, okColor: string := DefaultOkColor,
                      problemColor: string := DefaultProblemColor): (r: StatusView)
    ensures r.status == "OK" || r.status == "PROBLEM"
    ensures r.status == "OK" <==> value == "0"
    ensures r.color == (if r.status == "OK" then okColor else problemColor)
  {
    if value == "0" then StatusView("OK", okColor) else StatusView("PROBLEM", problemColor)
  }

  /** With the default colours, the colour alone tells the two statuses apart. */
  lemma DefaultStatusColor(value: string)
    ensures StatusCell(value).color == DefaultOkColor <==> value == "0"
    ensures StatusCell(value).color == DefaultProblemColor <==> value != "0"
  {
    assert DefaultOkColor[4] != DefaultProblemColor[4];
  }

  // ---------------------------------------------------------------------
  // Joining names

  /** `parts.join(sep)`: the parts in order with `sep` between neighbours. */
  function Join(parts: seq<string>, sep: string): string
  {
    if |parts| == 0 then ""
    else if |parts| == 1 then parts[0]
    else parts[0] + sep + Join(parts[1..], sep)
  }

  /** Where part `i` starts in the joined string: every earlier part and its separator. */
  function Offset(parts: seq<string>, sep: string, i: nat): nat
    requires i < |parts|
  {
    if i == 0 then 0 else |parts[0]| + |sep| + Offset(parts[1..], sep, i - 1)
  }

  /** The next part starts after this part and one separator. */
  lemma {:induction false} OffsetNext(parts: seq<string>, sep: string, i: nat)
    requires i + 1 < |parts|
    ensures Offset(parts, sep, i + 1) == Offset(parts, sep, i) + |parts[i]| + |sep|
  {
    if i > 0 {
      OffsetNext(parts[1..], sep, i - 1);
      assert parts[1..][i - 1] == parts[i];
    }
  }

  /**
   * The layout of a joined string: part `i` occupies the characters from its
   * offset on; a separator follows every part but the last, and the last part
   * ends the string.
   */
  lemma {:induction false} JoinLayout(parts: seq<string>, sep: string, i: nat)
    requires i < |parts|
    ensures Offset(parts, sep, i) + |parts[i]| <= |Join(parts, sep)|
    ensures Join(parts, sep)[Offset(parts, sep, i)..Offset(parts, sep, i) + |parts[i]|] == parts[i]
    ensures i + 1 == |parts| ==> Offset(parts, sep, i) + |parts[i]| == |Join(parts, sep)|
    ensures i + 1 < |parts| ==>
      && Offset(parts, sep, i) + |parts[i]| + |sep| <= |Join(parts, sep)|
      && Join(parts, sep)[Offset(parts, sep, i) + |parts[i]|..Offset(parts, sep, i) + |parts[i]| + |sep|] == sep
    decreases |parts|, 1
  {
    if |parts| > 1 {
      if i == 0 {
        var head := parts[0] + sep;
        var rest := Join(parts[1..], sep);
        assert Join(parts, sep) == head + rest;
        SliceBefore(head, rest, 0, |parts[0]|);
        SliceBefore(head, rest, |parts[0]|, |head|);
      } else {
        JoinLayoutLater(parts, sep, i);
      }
    }
  }

  /** The layout of a part after the first, from the layout of the joined rest. */
  lemma {:induction false} JoinLayoutLater(parts: seq<string>, sep: string, i: nat)
    requires 0 < i < |parts|
    ensures Offset(parts, sep, i) + |parts[i]| <= |Join(parts, sep)|
    ensures Join(parts, sep)[Offset(parts, sep, i)..Offset(parts, sep, i) + |parts[i]|] == parts[i]
    ensures i + 1 == |parts| ==> Offset(parts, sep, i) + |parts[i]| == |Join(parts, sep)|
    ensures i + 1 < |parts| ==>
      && Offset(parts, sep, i) + |parts[i]| + |sep| <= |Join(parts, sep)|
      && Join(parts, sep)[Offset(parts, sep, i) + |parts[i]|..Offset(parts, sep, i) + |parts[i]| + |sep|] == sep
    decreases |parts|, 0
  {
    var head := parts[0] + sep;
    var rest := Join(parts[1..], sep);
    assert Join(parts, sep) == head + rest;
    JoinLayout(parts[1..], sep, i - 1);
    var o := Offset(parts[1..], sep, i - 1);
    assert parts[1..][i - 1] == parts[i];
    SliceAfter(head, rest, o, o + |parts[i]|);
    if i + 1 < |parts| {
      SliceAfter(head, rest, o + |parts[i]|, o + |parts[i]| + |sep|);
    }
  }

  /** Slicing inside a prefix slices the prefix. */
  lemma SliceBefore(a: string, b: string, lo: nat, hi: nat)
    requires lo <= hi <= |a|
    ensures (a + b)[lo..hi] == a[lo..hi]
  {
  }

  /** Slicing past a prefix slices the remainder. */
  lemma SliceAfter(a: string, b: string, lo: nat, hi: nat)
    requires lo <= hi <= |b|
    ensures (a + b)[|a| + lo..|a| + hi] == b[lo..hi]
  {
  }

  /** The display names of host groups, in list order. */
  function GroupNames(groups: seq<Group>): (names: seq<string>)
    ensures |names| == |groups|
    ensures forall i :: 0 <= i < |groups| ==> names[i] == groups[i].name
  {
    if groups == [] then [] else [groups[0].name] + GroupNames(groups[1..])
  }

  /**
   * The host-groups cell: the group names joined by ", " when the list is
   * present and not empty, and the empty string otherwise.
   */
  function GroupCell(groups: Option<seq<Group>>): (r: string)
    ensures groups == None || groups == Some([]) ==> r == ""
    ensures groups.Some? && |groups.value| == 1 ==> r == groups.value[0].name
    ensures groups.Some? && |groups.value| > 0 ==> r == Join(GroupNames(groups.value), ", ")
  {
    if groups.Some? && |groups.value| > 0 then Join(GroupNames(groups.value), ", ") else ""
  }

  // ---------------------------------------------------------------------
  // Problem description and tags

  /** The description cell: the description text and whether the notes icon follows it. */
  datatype ProblemView = ProblemView(text: string, notesIcon: bool)

  /**
   * The description cell shows the description, and a notes icon exactly when
   * the record carries a non-empty comment; the comment text itself is not shown.
   */
  function ProblemCell(description: string, comments: Option<string>): (r: ProblemView)
    ensures r.text == description
    ensures r.notesIcon <==> comments.Some? && comments.value != ""
  {
    ProblemView(description, Truthy(comments))
  }

  /** One tag chip and the key that identifies it among its siblings. */
  datatype Chip = Chip(key: string, tag: Tag)

  /** One chip per tag, in list order, keyed by tag name followed by tag value. */
  function TagChips(tags: seq<Tag>): (chips: seq<Chip>)
    ensures |chips| == |tags|
    ensures forall i :: 0 <= i < |tags| ==>
      chips[i].tag == tags[i] && chips[i].key == tags[i].tag + tags[i].value
  {
    if tags == [] then [] else [Chip(tags[0].tag + tags[0].value, tags[0])] + TagChips(tags[1..])
  }

  /** The tags cell: the chips of the tag list; a missing list shows no chips. */
  function TagCell(tags: Option<seq<Tag>>): (chips: seq<Chip>)
    ensures tags.None? ==> chips == []
    ensures tags.Some? ==> |chips| == |tags.value|
    ensures tags.Some? ==> forall i :: 0 <= i < |chips| ==>
      chips[i].tag == tags.value[i] && chips[i].key == tags.value[i].tag + tags.value[i].value
  {
    TagChips(tags.GetOr([]))
  }

  // ---------------------------------------------------------------------
  // Item readings

  /** One item line: the item name when it is shown, and the last value. */
  datatype ItemLine = ItemLine(name: Option<string>, value: string)

  /** Every item with its name, in list order. */
  function NamedLines(items: seq<Item>): (lines: seq<ItemLine>)
    ensures |lines| == |items|
    ensures forall i :: 0 <= i < |items| ==>
      lines[i] == ItemLine(Some(items[i].name), items[i].lastvalue)
  {
    if items == [] then [] else [ItemLine(Some(items[0].name), items[0].lastvalue)] + NamedLines(items[1..])
  }

  /**
   * The item list: with more than one item every item is shown with its name,
   * in list order; a single item is shown by its value alone. An empty list
   * is not handled: the single-item branch passes `items[0]`, which is then
   * undefined, and reading its last value fails.
   */
  function ProblemItems(items: seq<Item>): (lines: seq<ItemLine>)
    requires |items| >= 1
    ensures |lines| == |items|
    ensures forall i :: 0 <= i < |items| ==> lines[i].value == items[i].lastvalue
    ensures forall i :: 0 <= i < |items| ==>
      lines[i].name == (if |items| > 1 then Some(items[i].name) else None)
  {
    if |items| > 1 then NamedLines(items) else [ItemLine(None, items[0].lastvalue)]
  }
}
