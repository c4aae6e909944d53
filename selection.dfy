/** The selection record shared by every feed list, and the one comparison
    that decides whether a row is highlighted. */
module Selection {
  import opened Wrappers

  /** The three depths of the navigation list (`levels.type`, `levels.folder`, `levels.feed`). */
  datatype Level = Type | Folder | Feed

  /** One selection record: what was clicked, its label, and the type tab it was clicked in. */
  datatype Sel = Sel(level: Level, id: string, name: string, typeKey: string)

  /** The highlight test written out on the folder and feed rows:
      a selection exists, its level is `level` and its id is `id`.
      The name and the type key take no part in it. */
  predicate Matches(cur: Option<Sel>, level: Level, id: string)
    ensures Matches(cur, level, id) ==> cur.Some?
    ensures cur.Some? ==> (Matches(cur, level, id) <==> (cur.value.level, cur.value.id) == (level, id))
  {
    cur.Some? && cur.value.level == level && cur.value.id == id
  }

  /** The slot that holds the current selection. It is owned above the feed lists
      and every list writes it through `Set`, the `setActivedList` callback. */
  class Selection {
    var active: Option<Sel>

    constructor ()
      ensures active == None
    {
      active := None;
    }

    /** Replaces the whole record; nothing of the previous one survives. */
    method Set(next: Sel)
      modifies this
      ensures active == Some(next)
    {
      active := Some(next);
    }
  }
}
