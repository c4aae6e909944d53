/** One `FeedList` instance: the list for one type tab. It writes the selection
    shared with its sibling lists and owns the open flags of the `FeedCategory`
    components it renders, one per category name. */
module FeedColumn {
  import opened Wrappers
  import opened Selection
  import opened TreeView
  import opened Events

  /** The names of the categories currently rendered, i.e. the keys of the
      mounted `FeedCategory` components. */
  function Names(data: Option<Tree>): (ns: set<string>)
    ensures forall c :: data.Some? && c in data.value.list ==> c.name in ns
    ensures forall n :: n in ns ==> data.Some? && exists c :: c in data.value.list && c.name == n
  {
    if data.None? then {} else set c | c in data.value.list :: c.name
  }

  class FeedList {
    const typeKey: string
    const selection: Selection
    var data: Option<Tree>
    var open: map<string, bool>

    /** Only mounted categories hold an open flag. Every method keeps this
        invariant; no contract relies on it. */
    ghost predicate Valid()
      reads this
    {
      open.Keys <= Names(data)
    }

    /** What the list shows now. */
    function View(): seq<Row>
      reads this, selection
    {
      Rows(typeKey, data, selection.active, open)
    }

    /** Every category starts closed (`useState(false)`). */
    constructor (typeKey: string, selection: Selection, data: Option<Tree>)
      ensures this.typeKey == typeKey && this.selection == selection && this.data == data
      ensures open == map[] && Valid()
      ensures forall n :: !IsOpen(open, n)
    {
      this.typeKey := typeKey;
      this.selection := selection;
      this.data := data;
      open := map[];
    }

    /** A new tree arrives from the provider. Components are keyed by category
        name, so a flag survives exactly when a category of the same name is
        still rendered; any other flag is dropped with its component, and a
        category seen again later starts closed. An absent tree unmounts them all. */
    method Refresh(next: Option<Tree>)
      modifies this`data, this`open
      ensures Valid() && data == next
      ensures open == map n | n in old(open) && n in Names(next) :: old(open)[n]
      ensures forall n :: n in Names(next) ==> IsOpen(open, n) == IsOpen(old(open), n)
    {
      data := next;
      open := map n | n in open && n in Names(next) :: open[n];
    }

    /** The header's click handler. */
    method ClickHeader()
      modifies selection
      ensures selection.active == Some(Sel(Type, typeKey, typeKey, typeKey))
    {
      selection.Set(Sel(Type, typeKey, typeKey, typeKey));
    }

    /** The `Collapsible`'s click handler for category `ci`. */
    method ClickFolder(ci: nat)
      requires data.Some? && ci < |data.value.list|
      modifies selection
      ensures var c := data.value.list[ci];
        selection.active == Some(Sel(Folder, c.id, c.name, typeKey))
      ensures |Folders(View())| == |data.value.list| && IsHighlighted(Folders(View())[ci])
      ensures forall r :: r in View() && r.FeedRow? ==> !IsHighlighted(r)
    {
      var c := data.value.list[ci];
      selection.Set(Sel(Folder, c.id, c.name, typeKey));
      SelectionMovesHighlight(typeKey, data.value, open, ci, 0);
    }

    /** The click handler of feed `fi` of category `ci`. The row is on screen
        while the category is open and during its exit animation; only while it
        is open does the view hold the row, which is then highlighted. */
    method ClickFeed(ci: nat, fi: nat)
      requires data.Some? && ci < |data.value.list| && fi < |data.value.list[ci].list|
      modifies selection
      ensures var f := data.value.list[ci].list[fi];
        selection.active == Some(Sel(Feed, f.id, f.title, typeKey))
      ensures var f := data.value.list[ci].list[fi];
        IsOpen(open, data.value.list[ci].name) ==>
        exists r :: r in View() && r.FeedRow? && r.id == f.id && IsHighlighted(r)
      ensures forall r :: r in View() && r.FolderRow? ==> !IsHighlighted(r)
    {
      var f := data.value.list[ci].list[fi];
      selection.Set(Sel(Feed, f.id, f.title, typeKey));
      SelectionMovesHighlight(typeKey, data.value, open, ci, fi);
      HighlightedRowsMatchSelection(typeKey, data, selection.active, open);
    }

    /** `onOpenChange(o)` of category `ci`: stores `o` under the category's name. */
    method OpenChange(ci: nat, o: bool)
      requires Valid() && data.Some? && ci < |data.value.list|
      modifies this`open
      ensures Valid()
      ensures open == old(open)[data.value.list[ci].name := o]
      ensures IsOpen(open, data.value.list[ci].name) == o
      ensures forall n :: n != data.value.list[ci].name ==> IsOpen(open, n) == IsOpen(old(open), n)
    {
      open := open[data.value.list[ci].name := o];
    }

    /** A click on category `ci`'s expand trigger. The trigger does not stop
        propagation, so after the collapsible reports `o` the enclosing
        `Collapsible`'s handler also runs and selects the folder. */
    method ClickTrigger(ci: nat, o: bool)
      requires Valid() && data.Some? && ci < |data.value.list|
      modifies selection, this`open
      ensures Valid()
      ensures open == old(open)[data.value.list[ci].name := o]
      ensures var c := data.value.list[ci];
        selection.active == Some(Sel(Folder, c.id, c.name, typeKey))
    {
      OpenChange(ci, o);
      ClickFolder(ci);
    }

    /** One click delivered to the list: the handlers on the clicked row's path
        run innermost first until one stops propagation. A trigger click runs
        the open change and then the folder's handler. */
    method Click(t: Target)
      requires Valid() && Clickable(t, data)
      modifies selection, this`open
      ensures Valid() && data == old(data)
      ensures Snapshot(selection.active, open)
           == ApplyAll(Snapshot(old(selection.active), old(open)), Bubble(Path(typeKey, data, t)))
    {
      ghost var before := Snapshot(selection.active, open);
      ghost var path := Path(typeKey, data, t);
      DispatchEffects(typeKey, data, t, []);
      assert path + [] == path;
      match t
      case OnHeader =>
        ClickHeader();
      case OnFolder(ci) =>
        ClickFolder(ci);
      case OnTrigger(ci, o) =>
        ClickTrigger(ci, o);
        ApplyPair(before, Bubble(path));
      case OnFeed(ci, fi) =>
        ClickFeed(ci, fi);
    }
  }

  /** Two type tabs sharing one selection, one of them still waiting for its
      tree: a folder click, a trigger click that opens the folder, a feed click
      inside it, and a trigger click that closes it. */
  method SharedSelectionScenario()
  {
    var blog := FeedData("x1", "Blog A", "https://a.example", 1);
    var tech := Category("f1", "Tech", 3, [blog]);
    var tree := Tree(3, [tech]);
    var sel := new Selection();
    var feeds := new FeedList("feeds", sel, Some(tree));
    var other := new FeedList("other", sel, None);
    assert other.View() == [TypeRow("other", None)];

    DispatchEffects("feeds", Some(tree), OnFolder(0), []);
    assert [FolderHandler("feeds", tech)] + [] == [FolderHandler("feeds", tech)];
    feeds.Click(OnFolder(0));
    assert sel.active == Some(Sel(Folder, "f1", "Tech", "feeds"));
    assert Matches(sel.active, Folder, "f1") && !Matches(sel.active, Feed, "x1");
    assert [tech][1..] == [];
    assert !IsOpen(feeds.open, "Tech");
    assert ListRows([tech], sel.active, feeds.open) == [FolderRowOf(tech, sel.active)];
    assert feeds.View() == [TypeRow("feeds", Some(3)), FolderRow("f1", "Tech", true, Some(3))];

    feeds.ClickTrigger(0, true);
    assert IsOpen(feeds.open, "Tech");
    DispatchEffects("feeds", Some(tree), OnFeed(0, 0), []);
    assert [FeedHandler("feeds", blog), FolderHandler("feeds", tech)] + []
        == [FeedHandler("feeds", blog), FolderHandler("feeds", tech)];
    feeds.Click(OnFeed(0, 0));
    assert sel.active == Some(Sel(Feed, "x1", "Blog A", "feeds"));
    assert !Matches(sel.active, Folder, "f1") && IsOpen(feeds.open, "Tech");
    assert [blog][1..] == [];
    assert FeedRows([blog], sel.active) == [FeedRowOf(blog, sel.active)];
    assert ListRows([tech], sel.active, feeds.open) == [FolderRowOf(tech, sel.active), FeedRowOf(blog, sel.active)];
    assert feeds.View() == [TypeRow("feeds", Some(3)), FolderRow("f1", "Tech", false, Some(3)),
                            FeedRow("x1", "Blog A", "https://a.example", true, Some(1))];

    feeds.ClickTrigger(0, false);
    assert !IsOpen(feeds.open, "Tech");
    assert sel.active == Some(Sel(Folder, "f1", "Tech", "feeds"));
    assert other.View() == [TypeRow("other", None)];
  }

  /** A category is opened and then closed by its trigger, and one of its feed
      rows is clicked while it closes. The row is still on screen during the
      exit animation, so the feed becomes selected, though the view no longer
      lists it and no folder row stays highlighted. */
  method ClosingFeedClickScenario()
  {
    var blog := FeedData("x1", "Blog A", "https://a.example", 1);
    var tech := Category("f1", "Tech", 3, [blog]);
    var tree := Tree(3, [tech]);
    var sel := new Selection();
    var feeds := new FeedList("feeds", sel, Some(tree));
    feeds.ClickTrigger(0, true);
    assert IsOpen(feeds.open, "Tech");
    feeds.ClickTrigger(0, false);
    assert !IsOpen(feeds.open, "Tech");

    DispatchEffects("feeds", Some(tree), OnFeed(0, 0), []);
    assert [FeedHandler("feeds", blog), FolderHandler("feeds", tech)] + []
        == [FeedHandler("feeds", blog), FolderHandler("feeds", tech)];
    feeds.Click(OnFeed(0, 0));
    assert sel.active == Some(Sel(Feed, "x1", "Blog A", "feeds"));
    assert [tech][1..] == [];
    assert ListRows([tech], sel.active, feeds.open) == [FolderRowOf(tech, sel.active)];
    assert feeds.View() == [TypeRow("feeds", Some(3)), FolderRow("f1", "Tech", false, Some(3))];
  }
}
