/** Which `onClick` handlers run for a click on each kind of row, and what they do.
    A click is delivered to the handlers on the path from the clicked element up
    to the root, innermost first, until a handler stops propagation. */
module Events {
  import opened Wrappers
  import opened Selection
  import opened TreeView

  /** What a handler does: one `setActivedList` call, or one `setOpen` call. */
  datatype Effect = Select(next: Sel) | SetOpen(name: string, open: bool)

  /** One handler on the bubbling path: its effect, and whether it calls `stopPropagation`. */
  datatype Handler = Handler(effect: Option<Effect>, stops: bool)

  /** The effects of delivering one click along `path`, in the order they happen. */
  function Bubble(path: seq<Handler>): (r: seq<Effect>)
    ensures |r| <= |path|
    ensures forall k :: 0 <= k < |r| ==> exists j :: 0 <= j < |path| && path[j].effect == Some(r[k])
  {
    if path == [] then []
    else
      (if path[0].effect.Some? then [path[0].effect.value] else [])
      + (if path[0].stops then [] else Bubble(path[1..]))
  }

  /** Once a handler on `path` stops propagation, nothing further up, in `outer`, runs. */
  lemma {:induction false} StoppedPathIgnoresOuter(path: seq<Handler>, outer: seq<Handler>)
    requires exists k :: 0 <= k < |path| && path[k].stops
    ensures Bubble(path + outer) == Bubble(path)
  {
    var k :| 0 <= k < |path| && path[k].stops;
    assert (path + outer)[0] == path[0];
    if !path[0].stops {
      assert path[1..][k - 1].stops;
      assert (path + outer)[1..] == path[1..] + outer;
      StoppedPathIgnoresOuter(path[1..], outer);
    }
  }

  /** The header `div`'s handler: select the type. */
  function HeaderHandler(typeKey: string): (h: Handler)
    ensures forall outer :: Bubble([h] + outer) == [Select(Sel(Type, typeKey, typeKey, typeKey))]
  {
    Handler(Some(Select(Sel(Type, typeKey, typeKey, typeKey))), true)
  }

  /** The `Collapsible`'s handler: select the folder. */
  function FolderHandler(typeKey: string, c: Category): (h: Handler)
    ensures forall outer :: Bubble([h] + outer) == [Select(Sel(Folder, c.id, c.name, typeKey))]
  {
    Handler(Some(Select(Sel(Folder, c.id, c.name, typeKey))), true)
  }

  /** A feed row's handler: select the feed, labelled with its title. */
  function FeedHandler(typeKey: string, f: FeedData): (h: Handler)
    ensures forall outer :: Bubble([h] + outer) == [Select(Sel(Feed, f.id, f.title, typeKey))]
  {
    Handler(Some(Select(Sel(Feed, f.id, f.title, typeKey))), true)
  }

  /** The `CollapsibleTrigger`: report the new open value `o` and let the click go on. */
  function TriggerHandler(c: Category, o: bool): (h: Handler)
    ensures forall outer :: Bubble([h] + outer) == [SetOpen(c.name, o)] + Bubble(outer)
  {
    Handler(Some(SetOpen(c.name, o)), false)
  }

  /** Where a click lands: the header, a folder row, a folder's expand trigger
      (with the open value the collapsible reports), or a feed row. */
  datatype Target = OnHeader | OnFolder(ci: nat) | OnTrigger(ci: nat, o: bool) | OnFeed(ci: nat, fi: nat)

  /** A click can only land on a row of the current tree. A feed row is
      clickable while its category is open and also while it closes, since the
      exit animation keeps the row on screen; the animation's timing is not
      modelled, so a feed of any category counts as clickable. */
  predicate Clickable(t: Target, data: Option<Tree>)
  {
    match t
    case OnHeader => true
    case OnFolder(ci) => data.Some? && ci < |data.value.list|
    case OnTrigger(ci, _) => data.Some? && ci < |data.value.list|
    case OnFeed(ci, fi) => data.Some? && ci < |data.value.list| && fi < |data.value.list[ci].list|
  }

  /** The handlers from the clicked element up to the list's root `div`, which has
      none. The path does not depend on any open flag. */
  function Path(typeKey: string, data: Option<Tree>, t: Target): (r: seq<Handler>)
    requires Clickable(t, data)
    ensures 1 <= |r| <= 2 && r[|r| - 1].stops
    ensures !t.OnHeader? ==> r[|r| - 1] == FolderHandler(typeKey, data.value.list[t.ci])
  {
    match t
    case OnHeader => [HeaderHandler(typeKey)]
    case OnFolder(ci) => [FolderHandler(typeKey, data.value.list[ci])]
    case OnTrigger(ci, o) => [TriggerHandler(data.value.list[ci], o), FolderHandler(typeKey, data.value.list[ci])]
    case OnFeed(ci, fi) =>
      [FeedHandler(typeKey, data.value.list[ci].list[fi]), FolderHandler(typeKey, data.value.list[ci])]
  }

  /** Whatever handlers sit above the list (`outer`), a click on a row issues
      exactly one selection, for the innermost row clicked; a click on the
      expand trigger first sets that category's open flag and then also
      selects the folder. */
  lemma DispatchEffects(typeKey: string, data: Option<Tree>, t: Target, outer: seq<Handler>)
    requires Clickable(t, data)
    ensures t.OnHeader? ==>
      Bubble(Path(typeKey, data, t) + outer) == [Select(Sel(Type, typeKey, typeKey, typeKey))]
    ensures t.OnFolder? ==>
      var c := data.value.list[t.ci];
      Bubble(Path(typeKey, data, t) + outer) == [Select(Sel(Folder, c.id, c.name, typeKey))]
    ensures t.OnTrigger? ==>
      var c := data.value.list[t.ci];
      Bubble(Path(typeKey, data, t) + outer) == [SetOpen(c.name, t.o), Select(Sel(Folder, c.id, c.name, typeKey))]
    ensures t.OnFeed? ==>
      var f := data.value.list[t.ci].list[t.fi];
      Bubble(Path(typeKey, data, t) + outer) == [Select(Sel(Feed, f.id, f.title, typeKey))]
  {
    var path := Path(typeKey, data, t);
    assert path[|path| - 1].stops;
    StoppedPathIgnoresOuter(path, outer);
    if t.OnTrigger? || t.OnFeed? {
      assert path[1..] == [path[1]];
      assert path[1..][1..] == [];
    }
  }

  /** The state the handlers act on: the shared selection and one list's open flags. */
  datatype Snapshot = Snapshot(active: Option<Sel>, open: map<string, bool>)

  function Apply(s: Snapshot, e: Effect): Snapshot
  {
    match e
    case Select(next) => s.(active := Some(next))
    case SetOpen(name, o) => s.(open := s.open[name := o])
  }

  function ApplyAll(s: Snapshot, es: seq<Effect>): Snapshot
    decreases es
  {
    if es == [] then s else ApplyAll(Apply(s, es[0]), es[1..])
  }

  /** A click on a header, folder or feed row leaves every open flag as it was. */
  lemma {:induction false} SelectionsKeepOpenFlags(s: Snapshot, es: seq<Effect>)
    requires forall k :: 0 <= k < |es| ==> es[k].Select?
    ensures ApplyAll(s, es).open == s.open
    ensures es != [] ==> ApplyAll(s, es).active == Some(es[|es| - 1].next)
    decreases es
  {
    if es != [] {
      SelectionsKeepOpenFlags(Apply(s, es[0]), es[1..]);
    }
  }

  /** A change of open flags alone never touches the selection. */
  lemma {:induction false} OpenChangesKeepSelection(s: Snapshot, es: seq<Effect>)
    requires forall k :: 0 <= k < |es| ==> es[k].SetOpen?
    ensures ApplyAll(s, es).active == s.active
    ensures forall name :: (forall k :: 0 <= k < |es| ==> es[k].name != name) ==>
      IsOpen(ApplyAll(s, es).open, name) == IsOpen(s.open, name)
    decreases es
  {
    if es != [] {
      OpenChangesKeepSelection(Apply(s, es[0]), es[1..]);
      forall name | forall k :: 0 <= k < |es| ==> es[k].name != name
        ensures IsOpen(ApplyAll(s, es).open, name) == IsOpen(s.open, name)
      {
        assert es[0].name != name;
        assert forall k :: 0 <= k < |es[1..]| ==> es[1..][k].name != name by {
          forall k | 0 <= k < |es[1..]| ensures es[1..][k].name != name {
            assert es[1..][k] == es[k + 1];
          }
        }
      }
    }
  }

  /** Two expand-trigger clicks that each report the flipped flag bring the
      category's flag back to where it was, and leave the folder selected. */
  lemma TriggerTwiceRestoresFlag(typeKey: string, t: Tree, ci: nat, s: Snapshot)
    requires ci < |t.list|
    ensures
      var c := t.list[ci];
      var p1 := Path(typeKey, Some(t), OnTrigger(ci, !IsOpen(s.open, c.name)));
      var s1 := ApplyAll(s, Bubble(p1));
      var p2 := Path(typeKey, Some(t), OnTrigger(ci, !IsOpen(s1.open, c.name)));
      var s2 := ApplyAll(s1, Bubble(p2));
      IsOpen(s1.open, c.name) != IsOpen(s.open, c.name)
      && IsOpen(s2.open, c.name) == IsOpen(s.open, c.name)
      && s2.active == Some(Sel(Folder, c.id, c.name, typeKey))
  {
    var c := t.list[ci];
    TriggerClickEffect(typeKey, t, ci, !IsOpen(s.open, c.name), s);
    var s1 := ApplyAll(s, Bubble(Path(typeKey, Some(t), OnTrigger(ci, !IsOpen(s.open, c.name)))));
    TriggerClickEffect(typeKey, t, ci, !IsOpen(s1.open, c.name), s1);
  }

  /** A trigger click reporting `o` stores `o` under the category's name and
      selects the folder. */
  lemma TriggerClickEffect(typeKey: string, t: Tree, ci: nat, o: bool, s: Snapshot)
    requires ci < |t.list|
    ensures var c := t.list[ci];
      ApplyAll(s, Bubble(Path(typeKey, Some(t), OnTrigger(ci, o))))
        == Snapshot(Some(Sel(Folder, c.id, c.name, typeKey)), s.open[c.name := o])
  {
    var p := Path(typeKey, Some(t), OnTrigger(ci, o));
    DispatchEffects(typeKey, Some(t), OnTrigger(ci, o), []);
    assert p + [] == p;
    ApplyPair(s, Bubble(p));
  }

  lemma ApplyPair(s: Snapshot, es: seq<Effect>)
    requires |es| == 2
    ensures ApplyAll(s, es) == Apply(Apply(s, es[0]), es[1])
  {
    var s1 := Apply(s, es[0]);
    assert ApplyAll(s, es) == ApplyAll(s1, es[1..]);
    assert es[1..][0] == es[1];
    assert es[1..][1..] == [];
    assert ApplyAll(s1, es[1..]) == ApplyAll(Apply(s1, es[1]), []);
  }
}
