/** The subscription tree one feed list receives, and the rows the list shows
    for it: the type header, then each category's folder row, followed by the
    category's feed rows while that category is open. */
module TreeView {
  import opened Wrappers
  import opened Selection

  datatype FeedData = FeedData(id: string, title: string, siteUrl: string, unread: int)
  datatype Category = Category(id: string, name: string, unread: int, list: seq<FeedData>)
  datatype Tree = Tree(unread: int, list: seq<Category>)

  /** One rendered row. The type header carries no highlight at all. */
  datatype Row =
    | TypeRow(text: string, badge: Option<int>)
    | FolderRow(id: string, text: string, highlighted: bool, badge: Option<int>)
    | FeedRow(id: string, text: string, siteUrl: string, highlighted: bool, badge: Option<int>)

  /** Open flags are kept per category name; a name never set reads as closed. */
  predicate IsOpen(open: map<string, bool>, name: string)
  {
    name in open && open[name]
  }

  /** The unread badge of a folder or feed row (`!!unread && ...`). */
  function Badge(unread: int): (b: Option<int>)
    ensures b.Some? <==> unread != 0
    ensures b.Some? ==> b.value == unread
  {
    if unread != 0 then Some(unread) else None
  }

  /** The folder row of `c`: its id and name, highlighted iff the selection
      is this folder, with the category's badge. */
  function FolderRowOf(c: Category, cur: Option<Sel>): (r: Row)
    ensures r.FolderRow? && r.id == c.id && r.text == c.name
    ensures IsHighlighted(r) <==> cur.Some? && cur.value.level == Folder && cur.value.id == c.id
    ensures r.badge.Some? <==> c.unread != 0
  {
    FolderRow(c.id, c.name, Matches(cur, Folder, c.id), Badge(c.unread))
  }

  /** The row of feed `f`: its id, title and site URL, highlighted iff the
      selection is this feed, with the feed's badge. */
  function FeedRowOf(f: FeedData, cur: Option<Sel>): (r: Row)
    ensures r.FeedRow? && r.id == f.id && r.text == f.title && r.siteUrl == f.siteUrl
    ensures IsHighlighted(r) <==> cur.Some? && cur.value.level == Feed && cur.value.id == f.id
    ensures r.badge.Some? <==> f.unread != 0
  {
    FeedRow(f.id, f.title, f.siteUrl, Matches(cur, Feed, f.id), Badge(f.unread))
  }

  /** `data.list.map(feed => ...)`: one row per feed, in `list` order. */
  function FeedRows(fs: seq<FeedData>, cur: Option<Sel>): (r: seq<Row>)
    ensures |r| == |fs|
    ensures forall i :: 0 <= i < |fs| ==> r[i] == FeedRowOf(fs[i], cur)
  {
    if fs == [] then [] else [FeedRowOf(fs[0], cur)] + FeedRows(fs[1..], cur)
  }

  /** One `FeedCategory`: its folder row, then its feeds only while it is open. */
  function CategoryRows(c: Category, cur: Option<Sel>, open: map<string, bool>): (r: seq<Row>)
    ensures |r| == 1 + (if IsOpen(open, c.name) then |c.list| else 0)
    ensures r[0] == FolderRowOf(c, cur)
    ensures forall k :: 1 <= k < |r| ==> r[k] == FeedRowOf(c.list[k - 1], cur)
  {
    [FolderRowOf(c, cur)] + (if IsOpen(open, c.name) then FeedRows(c.list, cur) else [])
  }

  /** `feeds.data.list.map(category => <FeedCategory .../>)`: at least one
      row per category, none of them a header, and none at all without categories. */
  function ListRows(cs: seq<Category>, cur: Option<Sel>, open: map<string, bool>): (r: seq<Row>)
    ensures |r| >= |cs|
    ensures r == [] <==> cs == []
    ensures forall k :: 0 <= k < |r| ==> !r[k].TypeRow?
  {
    if cs == [] then [] else CategoryRows(cs[0], cur, open) + ListRows(cs[1..], cur, open)
  }

  /** Everything one `FeedList` shows. The header shows the tree's unread count
      whenever the tree is present (a count of 0 is shown too); an absent tree
      yields no category rows. */
  function Rows(typeKey: string, data: Option<Tree>, cur: Option<Sel>, open: map<string, bool>): (r: seq<Row>)
    ensures |r| >= 1 && r[0].TypeRow? && r[0].text == typeKey
    ensures r[0].badge == if data.Some? then Some(data.value.unread) else None
    ensures forall k :: 1 <= k < |r| ==> !r[k].TypeRow?
    ensures data.None? ==> |r| == 1
  {
    [TypeRow(typeKey, if data.Some? then Some(data.value.unread) else None)]
      + (if data.Some? then ListRows(data.value.list, cur, open) else [])
  }

  // ---- views of a row sequence used to state the properties ----

  predicate IsHighlighted(r: Row)
  {
    !r.TypeRow? && r.highlighted
  }

  function LevelOf(r: Row): Level
  {
    match r
    case TypeRow(_, _) => Type
    case FolderRow(_, _, _, _) => Folder
    case FeedRow(_, _, _, _, _) => Feed
  }

  /** The folder rows of `rows`, in order. */
  function Folders(rows: seq<Row>): seq<Row>
  {
    if rows == [] then []
    else (if rows[0].FolderRow? then [rows[0]] else []) + Folders(rows[1..])
  }

  /** The feed rows of `rows`, in order. */
  function Feeds(rows: seq<Row>): seq<Row>
  {
    if rows == [] then []
    else (if rows[0].FeedRow? then [rows[0]] else []) + Feeds(rows[1..])
  }

  /** Reference definition of the visible feeds: the feed lists of the open
      categories, concatenated in category order. */
  function OpenFeeds(cs: seq<Category>, open: map<string, bool>): seq<FeedData>
  {
    if cs == [] then []
    else (if IsOpen(open, cs[0].name) then cs[0].list else []) + OpenFeeds(cs[1..], open)
  }

  // ---- lemmas ----

  lemma {:induction false} FoldersAppend(a: seq<Row>, b: seq<Row>)
    ensures Folders(a + b) == Folders(a) + Folders(b)
  {
    if a == [] {
      assert a + b == b;
    } else {
      assert (a + b)[1..] == a[1..] + b;
      FoldersAppend(a[1..], b);
    }
  }

  lemma {:induction false} FeedsAppend(a: seq<Row>, b: seq<Row>)
    ensures Feeds(a + b) == Feeds(a) + Feeds(b)
  {
    if a == [] {
      assert a + b == b;
    } else {
      assert (a + b)[1..] == a[1..] + b;
      FeedsAppend(a[1..], b);
    }
  }

  /** Feed rows hold no folder rows, and are all feed rows. */
  lemma {:induction false} FeedRowsAreFeeds(fs: seq<FeedData>, cur: Option<Sel>)
    ensures Folders(FeedRows(fs, cur)) == []
    ensures Feeds(FeedRows(fs, cur)) == FeedRows(fs, cur)
  {
    if fs != [] {
      FeedRowsAreFeeds(fs[1..], cur);
      FoldersAppend([FeedRowOf(fs[0], cur)], FeedRows(fs[1..], cur));
      FeedsAppend([FeedRowOf(fs[0], cur)], FeedRows(fs[1..], cur));
    }
  }

  lemma FeedRowsAppend(a: seq<FeedData>, b: seq<FeedData>, cur: Option<Sel>)
    ensures FeedRows(a + b, cur) == FeedRows(a, cur) + FeedRows(b, cur)
  {
    assert |FeedRows(a + b, cur)| == |a| + |b|;
  }

  /** A category block is exactly one folder row, for that category, and its
      feed rows are the category's feeds in order while open and none while closed. */
  lemma CategoryBlock(c: Category, cur: Option<Sel>, open: map<string, bool>)
    ensures Folders(CategoryRows(c, cur, open)) == [FolderRowOf(c, cur)]
    ensures Feeds(CategoryRows(c, cur, open))
         == if IsOpen(open, c.name) then FeedRows(c.list, cur) else []
  {
    var tail := if IsOpen(open, c.name) then FeedRows(c.list, cur) else [];
    FeedRowsAreFeeds(c.list, cur);
    FoldersAppend([FolderRowOf(c, cur)], tail);
    FeedsAppend([FolderRowOf(c, cur)], tail);
  }

  /** Categories are shown in source order, one folder row each, whatever the
      open flags are: no re-sorting, and expanding never changes a folder row
      or its highlight. */
  lemma {:induction false} FolderRowsInOrder(cs: seq<Category>, cur: Option<Sel>, open: map<string, bool>)
    ensures |Folders(ListRows(cs, cur, open))| == |cs|
    ensures forall i :: 0 <= i < |cs| ==> Folders(ListRows(cs, cur, open))[i] == FolderRowOf(cs[i], cur)
  {
    if cs != [] {
      CategoryBlock(cs[0], cur, open);
      FoldersAppend(CategoryRows(cs[0], cur, open), ListRows(cs[1..], cur, open));
      FolderRowsInOrder(cs[1..], cur, open);
      var fs := Folders(ListRows(cs, cur, open));
      assert fs == [FolderRowOf(cs[0], cur)] + Folders(ListRows(cs[1..], cur, open));
      forall i | 0 <= i < |cs|
        ensures fs[i] == FolderRowOf(cs[i], cur)
      {
        if i > 0 {
          assert fs[i] == Folders(ListRows(cs[1..], cur, open))[i - 1];
        }
      }
    }
  }

  /** The visible feed rows are the feeds of the open categories, in category
      order and then in each category's `list` order, and nothing else. */
  lemma {:induction false} VisibleFeedsInOrder(cs: seq<Category>, cur: Option<Sel>, open: map<string, bool>)
    ensures Feeds(ListRows(cs, cur, open)) == FeedRows(OpenFeeds(cs, open), cur)
  {
    if cs != [] {
      var head := if IsOpen(open, cs[0].name) then cs[0].list else [];
      CategoryBlock(cs[0], cur, open);
      FeedsAppend(CategoryRows(cs[0], cur, open), ListRows(cs[1..], cur, open));
      VisibleFeedsInOrder(cs[1..], cur, open);
      FeedRowsAppend(head, OpenFeeds(cs[1..], open), cur);
    }
  }

  /** While no category is open, and in particular before any open flag has been
      set, no feed row is shown. */
  lemma {:induction false} ClosedCategoriesShowNoFeeds(cs: seq<Category>, cur: Option<Sel>, open: map<string, bool>)
    requires forall c :: c in cs ==> !IsOpen(open, c.name)
    ensures Feeds(ListRows(cs, cur, open)) == []
  {
    VisibleFeedsInOrder(cs, cur, open);
    NoOpenFeeds(cs, open);
  }

  lemma {:induction false} NoOpenFeeds(cs: seq<Category>, open: map<string, bool>)
    requires forall c :: c in cs ==> !IsOpen(open, c.name)
    ensures OpenFeeds(cs, open) == []
  {
    if cs != [] {
      assert cs[0] in cs;
      NoOpenFeeds(cs[1..], open);
    }
  }

  /** Without a tree only the header is shown, without a badge. */
  lemma AbsentTreeShowsHeaderOnly(typeKey: string, cur: Option<Sel>, open: map<string, bool>)
    ensures Rows(typeKey, None, cur, open) == [TypeRow(typeKey, None)]
  {
  }

  lemma {:induction false} FeedRowsHighlightMatch(fs: seq<FeedData>, cur: Option<Sel>)
    ensures forall r :: r in FeedRows(fs, cur) ==> r.FeedRow? && (r.highlighted ==> Matches(cur, Feed, r.id))
  {
    if fs != [] {
      FeedRowsHighlightMatch(fs[1..], cur);
    }
  }

  lemma {:induction false} ListRowsHighlightMatch(cs: seq<Category>, cur: Option<Sel>, open: map<string, bool>)
    ensures forall r :: r in ListRows(cs, cur, open) && IsHighlighted(r) ==> Matches(cur, LevelOf(r), r.id)
  {
    if cs != [] {
      FeedRowsHighlightMatch(cs[0].list, cur);
      ListRowsHighlightMatch(cs[1..], cur, open);
      var block := CategoryRows(cs[0], cur, open);
      forall r | r in ListRows(cs, cur, open) && IsHighlighted(r)
        ensures Matches(cur, LevelOf(r), r.id)
      {
        assert ListRows(cs, cur, open) == block + ListRows(cs[1..], cur, open);
        if r in block {
          if r != FolderRowOf(cs[0], cur) {
            assert r in FeedRows(cs[0].list, cur);
          }
        } else {
          assert r in ListRows(cs[1..], cur, open);
        }
      }
    }
  }

  /** Every highlighted row is a folder or feed row whose (level, id) is the
      selection's. So a folder row and a feed row are never highlighted together,
      and two highlighted rows always have the same level and id. */
  lemma HighlightedRowsMatchSelection(typeKey: string, data: Option<Tree>, cur: Option<Sel>, open: map<string, bool>)
    ensures forall r :: r in Rows(typeKey, data, cur, open) && IsHighlighted(r) ==>
      cur.Some? && LevelOf(r) == cur.value.level != Type && r.id == cur.value.id
  {
    if data.Some? {
      ListRowsHighlightMatch(data.value.list, cur, open);
    }
  }

  /** A folder row and a feed row are never highlighted at the same time. */
  lemma FolderAndFeedNeverBothHighlighted(typeKey: string, data: Option<Tree>, cur: Option<Sel>, open: map<string, bool>, r1: Row, r2: Row)
    requires r1 in Rows(typeKey, data, cur, open) && r1.FolderRow? && IsHighlighted(r1)
    requires r2 in Rows(typeKey, data, cur, open) && r2.FeedRow?
    ensures !IsHighlighted(r2)
  {
    HighlightedRowsMatchSelection(typeKey, data, cur, open);
  }

  /** An empty selection or a type-level selection highlights no row. */
  lemma TypeOrNoSelectionHighlightsNothing(typeKey: string, data: Option<Tree>, cur: Option<Sel>, open: map<string, bool>)
    requires cur.None? || cur.value.level == Type
    ensures forall r :: r in Rows(typeKey, data, cur, open) ==> !IsHighlighted(r)
  {
    HighlightedRowsMatchSelection(typeKey, data, cur, open);
  }

  /** Selecting folder `i` highlights its folder row; selecting a feed of an open
      category highlights that feed's row. */
  lemma SelectedRowsAreHighlighted(typeKey: string, t: Tree, cur: Option<Sel>, open: map<string, bool>, i: nat)
    requires i < |t.list|
    ensures Matches(cur, Folder, t.list[i].id) ==>
      exists r :: r in Rows(typeKey, Some(t), cur, open) && r.FolderRow? && r.id == t.list[i].id && IsHighlighted(r)
    ensures forall j :: 0 <= j < |t.list[i].list| && IsOpen(open, t.list[i].name) && Matches(cur, Feed, t.list[i].list[j].id) ==>
      exists r :: r in Rows(typeKey, Some(t), cur, open) && r.FeedRow? && r.id == t.list[i].list[j].id && IsHighlighted(r)
  {
    var rows := Rows(typeKey, Some(t), cur, open);
    var cs := t.list;
    ListRowsSplit(cs, cur, open, i);
    var block := CategoryRows(cs[i], cur, open);
    assert block <= ListRows(cs[i..], cur, open);
    assert forall r :: r in block ==> r in rows by {
      forall r | r in block ensures r in rows {
        var k :| 0 <= k < |block| && block[k] == r;
        assert rows[1 + |ListRows(cs[..i], cur, open)| + k] == r;
      }
    }
    assert FolderRowOf(cs[i], cur) == block[0];
    forall j | 0 <= j < |cs[i].list| && IsOpen(open, cs[i].name)
      ensures FeedRowOf(cs[i].list[j], cur) in block
    {
      assert block[1 + j] == FeedRowOf(cs[i].list[j], cur);
    }
  }

  /** Selecting folder `ci` highlights its folder row and no feed row; a later
      selection of one of its feeds, while it is open, moves the highlight to
      that feed's row and leaves no folder row highlighted. */
  lemma SelectionMovesHighlight(typeKey: string, t: Tree, open: map<string, bool>, ci: nat, fi: nat)
    requires ci < |t.list|
    ensures var c := t.list[ci];
      var v := Rows(typeKey, Some(t), Some(Sel(Folder, c.id, c.name, typeKey)), open);
      |Folders(v)| == |t.list| && IsHighlighted(Folders(v)[ci])
      && forall r :: r in v && r.FeedRow? ==> !IsHighlighted(r)
    ensures var c := t.list[ci];
      fi < |c.list| && IsOpen(open, c.name) ==>
      var f := c.list[fi];
      var w := Rows(typeKey, Some(t), Some(Sel(Feed, f.id, f.title, typeKey)), open);
      |Folders(w)| == |t.list| && !IsHighlighted(Folders(w)[ci])
      && (exists r :: r in w && r.FeedRow? && r.id == f.id && IsHighlighted(r))
      && forall r :: r in w && r.FolderRow? ==> !IsHighlighted(r)
  {
    var c := t.list[ci];
    var folderSel := Some(Sel(Folder, c.id, c.name, typeKey));
    var v := Rows(typeKey, Some(t), folderSel, open);
    FoldersAppend([v[0]], ListRows(t.list, folderSel, open));
    FolderRowsInOrder(t.list, folderSel, open);
    HighlightedRowsMatchSelection(typeKey, Some(t), folderSel, open);
    if fi < |c.list| && IsOpen(open, c.name) {
      var f := c.list[fi];
      var feedSel := Some(Sel(Feed, f.id, f.title, typeKey));
      var w := Rows(typeKey, Some(t), feedSel, open);
      FoldersAppend([w[0]], ListRows(t.list, feedSel, open));
      FolderRowsInOrder(t.list, feedSel, open);
      HighlightedRowsMatchSelection(typeKey, Some(t), feedSel, open);
      SelectedRowsAreHighlighted(typeKey, t, feedSel, open, ci);
      assert fi < |c.list| && IsOpen(open, c.name) && Matches(feedSel, Feed, c.list[fi].id);
    }
  }

  lemma {:induction false} ListRowsAppend(a: seq<Category>, b: seq<Category>, cur: Option<Sel>, open: map<string, bool>)
    ensures ListRows(a + b, cur, open) == ListRows(a, cur, open) + ListRows(b, cur, open)
  {
    if a == [] {
      assert a + b == b;
    } else {
      assert (a + b)[0] == a[0] && (a + b)[1..] == a[1..] + b;
      ListRowsAppend(a[1..], b, cur, open);
    }
  }

  lemma ListRowsSplit(cs: seq<Category>, cur: Option<Sel>, open: map<string, bool>, i: nat)
    requires i < |cs|
    ensures ListRows(cs, cur, open) == ListRows(cs[..i], cur, open) + ListRows(cs[i..], cur, open)
    ensures ListRows(cs[i..], cur, open) == CategoryRows(cs[i], cur, open) + ListRows(cs[i + 1..], cur, open)
  {
    assert cs[..i] + cs[i..] == cs;
    ListRowsAppend(cs[..i], cs[i..], cur, open);
    assert cs[i..][0] == cs[i] && cs[i..][1..] == cs[i + 1..];
  }
}
