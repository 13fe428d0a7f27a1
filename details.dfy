/**
 * The expanded detail panel of one problem: which blocks it shows, in which
 * order, from which fields of the record, and the one-shot `show` flag that
 * drives its entry transition.
 */
module Details {
  import opened Wrappers
  import opened Triggers
  import opened Cells

  /** One acknowledgement line: time, user and message. */
  datatype AckLine = AckLine(time: string, user: string, message: string)

  /** The acknowledgement lines, one per acknowledgement, in record order. */
  function AckLines(acks: seq<Acknowledge>): (lines: seq<AckLine>)
    ensures |lines| == |acks|
    ensures forall i :: 0 <= i < |acks| ==>
      lines[i] == AckLine(acks[i].time, acks[i].user, acks[i].message)
  {
    if acks == [] then [] else [AckLine(acks[0].time, acks[0].user, acks[0].message)] + AckLines(acks[1..])
  }

  /**
   * The group text of the panel's sidebar: the names joined by ", " whenever
   * the list is present (an empty list joins to the empty string).
   */
  function DetailGroups(groups: Option<seq<Group>>): string
  {
    if groups.Some? then Join(GroupNames(groups.value), ", ") else ""
  }

  /** The sidebar and the table cell show the same group text for every list. */
  lemma DetailGroupsAgree(groups: Option<seq<Group>>)
    ensures DetailGroups(groups) == GroupCell(groups)
  {
    if groups.Some? && groups.value == [] {
      assert GroupNames([]) == [];
    }
  }

  /** The blocks of the panel, each with what it shows. */
  datatype Block =
    | AgeBlock(age: string)
    | ItemsBlock(lines: seq<ItemLine>)
    | DescriptionBlock(text: string)
    | MultiEventBadge
    | TagsBlock(chips: seq<Chip>)
    | AcknowledgesBlock(acks: seq<AckLine>)
    | DatasourceBlock(datasource: string)
    | ProxyBlock(proxy: string)
    | GroupsBlock(groups: string)
    | MaintenanceBlock
  {
    /** Which kind of block this is. */
    function Kind(): Region {
      match this
      case AgeBlock(_) => Age
      case ItemsBlock(_) => Items
      case DescriptionBlock(_) => Description
      case MultiEventBadge => MultiEvent
      case TagsBlock(_) => Tags
      case AcknowledgesBlock(_) => Acknowledges
      case DatasourceBlock(_) => Datasource
      case ProxyBlock(_) => Proxy
      case GroupsBlock(_) => Groups
      case MaintenanceBlock => Maintenance
    }
  }

  /** The kinds of block, in the order the panel lays them out. */
  datatype Region = Age | Items | Description | MultiEvent | Tags | Acknowledges | Datasource | Proxy | Groups | Maintenance
  {
    /** The position of this kind of block in the layout. */
    function Rank(): nat {
      match this
      case Age => 0
      case Items => 1
      case Description => 2
      case MultiEvent => 3
      case Tags => 4
      case Acknowledges => 5
      case Datasource => 6
      case Proxy => 7
      case Groups => 8
      case Maintenance => 9
    }
  }

  /**
   * A record the panel can render: an item list, when present, is not empty
   * (the item list reads the first item when there are fewer than two).
   */
  predicate Renderable(p: Trigger) {
    p.items.Some? ==> |p.items.value| >= 1
  }

  /** The regions of the panel in the order it lays them out. */
  const Layout: seq<Region> :=
    [Age, Items, Description, MultiEvent, Tags, Acknowledges, Datasource, Proxy, Groups, Maintenance]

  /**
   * What one region of the panel renders for a record: the age, the tags
   * region, the datasource and the groups always; the items when the list is
   * present; the comment and the proxy when non-empty; the bullhorn badge for
   * type "1"; the acknowledgements when present; the maintenance mark when set.
   */
  function RegionBlocks(p: Trigger, k: Region): seq<Block>
    requires Renderable(p)
  {
    match k
    case Age => [AgeBlock(p.age)]
    case Items => if p.items.Some? then [ItemsBlock(ProblemItems(p.items.value))] else []
    case Description => if Truthy(p.comments) then [DescriptionBlock(p.comments.value)] else []
    case MultiEvent => if p.eventType == "1" then [MultiEventBadge] else []
    case Tags => [TagsBlock(if p.tags.Some? then TagChips(p.tags.value) else [])]
    case Acknowledges =>
      if p.acknowledges.Some? then [AcknowledgesBlock(AckLines(p.acknowledges.value))] else []
    case Datasource => [DatasourceBlock(p.datasource)]
    case Proxy => if Truthy(p.proxy) then [ProxyBlock(p.proxy.value)] else []
    case Groups => [GroupsBlock(DetailGroups(p.groups))]
    case Maintenance => if p.maintenance then [MaintenanceBlock] else []
  }

  /** The blocks the given regions render, region after region. */
  function RegionsBlocks(p: Trigger, regions: seq<Region>): seq<Block>
    requires Renderable(p)
  {
    Concat(RegionParts(p, regions))
  }

  /** What each of the given regions renders. */
  function RegionParts(p: Trigger, regions: seq<Region>): seq<seq<Block>>
    requires Renderable(p)
  {
    seq(|regions|, i requires 0 <= i < |regions| => RegionBlocks(p, regions[i]))
  }

  /** The parts one after the other. */
  function Concat(parts: seq<seq<Block>>): seq<Block>
  {
    if parts == [] then [] else parts[0] + Concat(parts[1..])
  }

  /** The first region's blocks come before those of the regions after it. */
  lemma RegionsBlocksCons(p: Trigger, regions: seq<Region>)
    requires Renderable(p)
    requires regions != []
    ensures RegionsBlocks(p, regions) == RegionBlocks(p, regions[0]) + RegionsBlocks(p, regions[1..])
  {
    assert RegionParts(p, regions)[1..] == RegionParts(p, regions[1..]);
  }

  /** The blocks of the panel for one record. */
  function DetailBlocks(p: Trigger): seq<Block>
    requires Renderable(p)
  {
    RegionsBlocks(p, Layout)
  }

  /** Whether the panel of record `p` shows a block of kind `k`. */
  predicate Shown(p: Trigger, k: Region) {
    match k
    case Age => true
    case Items => p.items.Some?
    case Description => p.comments.Some? && |p.comments.value| > 0
    case MultiEvent => p.eventType == "1"
    case Tags => true
    case Acknowledges => p.acknowledges.Some?
    case Datasource => true
    case Proxy => p.proxy.Some? && |p.proxy.value| > 0
    case Groups => true
    case Maintenance => p.maintenance
  }

  /** The kinds of the blocks, in order. */
  function Kinds(blocks: seq<Block>): seq<Region>
  {
    seq(|blocks|, i requires 0 <= i < |blocks| => blocks[i].Kind())
  }

  /** The kinds of the blocks strictly increase in layout order. */
  ghost predicate InLayoutOrder(blocks: seq<Block>) {
    forall i, j :: 0 <= i < j < |blocks| ==> blocks[i].Kind().Rank() < blocks[j].Kind().Rank()
  }

  /** A region renders at most one block, of its own kind, exactly when the record calls for it. */
  lemma RegionBlocksShown(p: Trigger, k: Region)
    requires Renderable(p)
    ensures |RegionBlocks(p, k)| <= 1
    ensures RegionBlocks(p, k) != [] <==> Shown(p, k)
    ensures forall b :: b in RegionBlocks(p, k) ==> b.Kind() == k
  {
  }

  lemma KindsAppend(a: seq<Block>, b: seq<Block>)
    ensures Kinds(a + b) == Kinds(a) + Kinds(b)
  {
    assert forall i :: 0 <= i < |a + b| ==> Kinds(a + b)[i] == (Kinds(a) + Kinds(b))[i];
  }

  /**
   * Regions rendered in strictly increasing layout order give blocks in
   * strictly increasing layout order, one for each region the record calls for.
   */
  lemma {:induction false} RegionsBlocksSelection(p: Trigger, regions: seq<Region>)
    requires Renderable(p)
    requires forall i, j :: 0 <= i < j < |regions| ==> regions[i].Rank() < regions[j].Rank()
    ensures InLayoutOrder(RegionsBlocks(p, regions))
    ensures forall b :: b in RegionsBlocks(p, regions) ==> b.Kind() in regions
    ensures forall k :: k in Kinds(RegionsBlocks(p, regions)) <==> k in regions && Shown(p, k)
  {
    if regions != [] {
      var first := regions[0];
      var rest := regions[1..];
      var part := RegionBlocks(p, first);
      var after := RegionsBlocks(p, rest);
      RegionsBlocksSelection(p, rest);
      RegionBlocksShown(p, first);
      assert forall b :: b in after ==> first.Rank() < b.Kind().Rank() by {
        forall b | b in after
          ensures first.Rank() < b.Kind().Rank()
        {
          var i :| 0 <= i < |rest| && rest[i] == b.Kind();
          assert regions[i + 1] == rest[i];
        }
      }
      PrependOrder(part, after, first);
      KindsAppend(part, after);
      RegionsBlocksCons(p, regions);
      assert part != [] ==> Kinds(part) == [first];
      assert regions == [first] + rest;
    }
  }

  lemma PrependOrder(part: seq<Block>, blocks: seq<Block>, k: Region)
    requires InLayoutOrder(blocks)
    requires forall b :: b in blocks ==> k.Rank() < b.Kind().Rank()
    requires |part| <= 1 && forall b :: b in part ==> b.Kind() == k
    ensures InLayoutOrder(part + blocks)
  {
    if part != [] {
      var all := part + blocks;
      forall i, j | 0 <= i < j < |all|
        ensures all[i].Kind().Rank() < all[j].Kind().Rank()
      {
        if i > 0 {
          assert all[i] == blocks[i - 1] && all[j] == blocks[j - 1];
        } else {
          assert all[i] in part;
          assert all[j] in blocks;
        }
      }
    }
  }

  /**
   * The panel shows a block of kind `k` exactly when the record calls for it,
   * and the blocks come in strictly increasing layout order, so each kind
   * appears at most once and always in the same place relative to the others.
   */
  lemma DetailBlockSelection(p: Trigger)
    requires Renderable(p)
    ensures forall k :: k in Kinds(DetailBlocks(p)) <==> Shown(p, k)
    ensures forall i, j :: 0 <= i < j < |DetailBlocks(p)| ==>
      DetailBlocks(p)[i].Kind().Rank() < DetailBlocks(p)[j].Kind().Rank()
  {
    assert forall i, j :: 0 <= i < j < |Layout| ==> Layout[i].Rank() < Layout[j].Rank() by {
      forall i, j | 0 <= i < j < |Layout|
        ensures Layout[i].Rank() < Layout[j].Rank()
      {
        assert forall n :: 0 <= n < |Layout| ==> Layout[n].Rank() == n;
      }
    }
    RegionsBlocksSelection(p, Layout);
    forall k
      ensures k in Layout
    {
      assert Layout[k.Rank()] == k;
    }
  }

  /** What a block shows, as drawn from the record. */
  ghost predicate FromRecord(p: Trigger, b: Block) {
    match b
    case AgeBlock(age) => age == p.age
    case ItemsBlock(lines) =>
      && p.items.Some?
      && |lines| == |p.items.value|
      && (forall i :: 0 <= i < |lines| ==> lines[i].value == p.items.value[i].lastvalue)
      && (forall i :: 0 <= i < |lines| ==> (lines[i].name.Some? <==> |lines| > 1))
      && (|lines| > 1 ==> forall i :: 0 <= i < |lines| ==> lines[i].name == Some(p.items.value[i].name))
    case DescriptionBlock(text) => p.comments == Some(text)
    case MultiEventBadge => p.eventType == "1"
    case TagsBlock(chips) =>
      && |chips| == |p.tags.GetOr([])|
      && forall i :: 0 <= i < |chips| ==> chips[i] == Chip(p.tags.value[i].tag + p.tags.value[i].value, p.tags.value[i])
    case AcknowledgesBlock(acks) =>
      && p.acknowledges.Some?
      && |acks| == |p.acknowledges.value|
      && forall i :: 0 <= i < |acks| ==>
           acks[i] == AckLine(p.acknowledges.value[i].time, p.acknowledges.value[i].user, p.acknowledges.value[i].message)
    case DatasourceBlock(datasource) => datasource == p.datasource
    case ProxyBlock(proxy) => p.proxy == Some(proxy)
    case GroupsBlock(groups) => groups == GroupCell(p.groups)
    case MaintenanceBlock => p.maintenance
  }

  lemma RegionFromRecord(p: Trigger, k: Region)
    requires Renderable(p)
    ensures forall b :: b in RegionBlocks(p, k) ==> FromRecord(p, b)
  {
    if k == Groups {
      DetailGroupsAgree(p.groups);
    }
  }

  /**
   * Every block shows what the record holds: the acknowledgements and the tag
   * chips in record order, the items with names exactly when there are several,
   * and the same group text as the table's group cell.
   */
  lemma {:induction false} DetailBlocksFromRecord(p: Trigger, regions: seq<Region>)
    requires Renderable(p)
    ensures forall b :: b in RegionsBlocks(p, regions) ==> FromRecord(p, b)
  {
    if regions != [] {
      DetailBlocksFromRecord(p, regions[1..]);
      RegionFromRecord(p, regions[0]);
      RegionsBlocksCons(p, regions);
    }
  }

  /** The panel's blocks, region by region. */
  lemma DetailBlocksUnrolled(p: Trigger)
    requires Renderable(p)
    ensures DetailBlocks(p) ==
      RegionBlocks(p, Age) + RegionBlocks(p, Items) + RegionBlocks(p, Description)
      + RegionBlocks(p, MultiEvent) + RegionBlocks(p, Tags) + RegionBlocks(p, Acknowledges)
      + RegionBlocks(p, Datasource) + RegionBlocks(p, Proxy) + RegionBlocks(p, Groups)
      + RegionBlocks(p, Maintenance)
  {
    ConcatTen(RegionParts(p, Layout));
  }

  /** Ten parts concatenated, one after the other. */
  lemma ConcatTen(parts: seq<seq<Block>>)
    requires |parts| == 10
    ensures Concat(parts) ==
      parts[0] + parts[1] + parts[2] + parts[3] + parts[4]
      + parts[5] + parts[6] + parts[7] + parts[8] + parts[9]
  {
    assert parts[0..] == parts;
    ConcatStep(parts, 0, []);
    ConcatStep(parts, 1, parts[0]);
    ConcatStep(parts, 2, parts[0] + parts[1]);
    ConcatStep(parts, 3, parts[0] + parts[1] + parts[2]);
    ConcatStep(parts, 4, parts[0] + parts[1] + parts[2] + parts[3]);
    ConcatStep(parts, 5, parts[0] + parts[1] + parts[2] + parts[3] + parts[4]);
    ConcatStep(parts, 6, parts[0] + parts[1] + parts[2] + parts[3] + parts[4] + parts[5]);
    ConcatStep(parts, 7, parts[0] + parts[1] + parts[2] + parts[3] + parts[4] + parts[5] + parts[6]);
    ConcatStep(parts, 8, parts[0] + parts[1] + parts[2] + parts[3] + parts[4] + parts[5] + parts[6] + parts[7]);
    ConcatStep(parts, 9, parts[0] + parts[1] + parts[2] + parts[3] + parts[4] + parts[5] + parts[6] + parts[7] + parts[8]);
    assert parts[10..] == [];
  }

  /** One more part of the unrolling. */
  lemma ConcatStep(parts: seq<seq<Block>>, k: nat, done: seq<Block>)
    requires k < |parts|
    requires Concat(parts) == done + Concat(parts[k..])
    ensures Concat(parts) == (done + parts[k]) + Concat(parts[k + 1..])
  {
    var rest := parts[k..];
    assert rest[0] == parts[k] && rest[1..] == parts[k + 1..];
    assert done + (parts[k] + Concat(parts[k + 1..])) == (done + parts[k]) + Concat(parts[k + 1..]);
  }

  /**
   * A record with no items, acknowledgements or maintenance flag, no non-empty
   * comment or proxy, and an event type other than "1", shows only its age, its (possibly
   * empty) tags region, its datasource and its groups.
   */
  lemma BareRecordBlocks(p: Trigger)
    requires p.items.None? && !Truthy(p.comments) && p.acknowledges.None?
    requires !Truthy(p.proxy) && !p.maintenance && p.eventType != "1"
    ensures Renderable(p)
    ensures DetailBlocks(p) ==
      [AgeBlock(p.age), TagsBlock(TagCell(p.tags)), DatasourceBlock(p.datasource), GroupsBlock(GroupCell(p.groups))]
  {
    DetailBlocksUnrolled(p);
    DetailGroupsAgree(p.groups);
    assert RegionBlocks(p, Items) == RegionBlocks(p, Description) == RegionBlocks(p, MultiEvent) == [];
    assert RegionBlocks(p, Acknowledges) == RegionBlocks(p, Proxy) == RegionBlocks(p, Maintenance) == [];
  }

  /**
   * The panel of one expanded row. It is created hidden and its entry
   * transition shows it on the next animation frame; nothing hides it again.
   */
  class ProblemDetails {
    const problem: Trigger
    var show: bool

    constructor (problem: Trigger)
      ensures this.problem == problem && !show
    {
      this.problem := problem;
      show := false;
    }

    /** The animation-frame callback scheduled when the panel mounts. */
    method Enter()
      modifies this
      ensures show
    {
      show := true;
    }

    /** The extra class of the panel's container: "show" once it has entered. */
    function DisplayClass(): (c: string)
      reads this
      ensures c == "show" <==> show
      ensures c == "" <==> !show
    {
      if show then "show" else ""
    }
  }
}
