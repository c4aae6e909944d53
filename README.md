# Feed column navigation list — a Dafny model

This project models the navigation list of the feed column
(`src/renderer/src/components/feed-column/list.tsx`). The list has three
levels: a type header, then one folder row per category, then, under an open
category, one row per feed. Under the React component sits a small state
machine, and that machine is what is modelled:

- **The selection** (`Selection` module). It is one record `{level, id, name, type}`,
  or none. Each click handler replaces it whole through `setActivedList`. The
  list receives `activedList` and `setActivedList` as props
  (list.tsx:12-17); their owner is not part of this model. The model assumes
  that the owner passes the same pair to the list of every type tab, so all
  lists share one `Selection` object, a class with one field, `active`.
- **The highlight test** (`Selection.Matches`). A folder or feed row is
  highlighted when a selection exists and its level and id equal the row's.
  The name and the type key are not compared. The type header has no highlight.
- **Event containment** (`Events` module). A click goes to the handlers on the
  path from the clicked element upwards, innermost first, until one calls
  `stopPropagation`. The header, folder and feed handlers all stop it. The
  expand trigger (`CollapsibleTrigger`) sits inside the `Collapsible` whose
  click handler selects the folder, and it does not stop propagation. So a
  trigger click first changes the open flag and then also selects the folder.
- **Open flags** (`FeedColumn.FeedList`). Each category's open flag starts
  `false` and is set only through `onOpenChange`. It is kept per category
  **name**, because React keys `FeedCategory` by `category.name`. When a new
  tree no longer contains a category of that name, its component unmounts and
  the flag is dropped (`FeedList.Refresh`); a category of that name shown
  later starts closed again.
- **Visible rows** (`TreeView` module). A pure projection of (type key, tree or
  nothing, selection, open flags) to the rows shown. Categories appear in tree
  order. A category's feeds appear, in tree order, only while it is open. An
  absent tree shows the header only.

The class `FeedColumn.FeedList` holds one list's type key, a reference to the
shared `Selection`, the current tree and the open flags. Its methods are the
handlers, plus `Click`, which delivers one click along the bubbling path and is
proved to give the same state as applying, in order, the effects that
`Events.Bubble` says the path produces. `SharedSelectionScenario` drives two
lists that share one selection through a folder click, a trigger click, a feed
click and a second trigger click, with the second list's tree still absent.
`ClosingFeedClickScenario` clicks a feed row of a category that is closing.

Points of the code worth noting:

- Open flags are keyed by category name, so a category that keeps its name
  across a new tree keeps its flag (for categories that share a name, see
  "## Left out").
- Clicking the expand trigger changes the selection: the folder becomes
  selected. Only the `onOpenChange` callback on its own leaves the selection
  alone (`Events.OpenChangesKeepSelection`, `FeedColumn.FeedList.OpenChange`).
- The flag is set to the value the collapsible reports. Flipping is what
  happens when the reported value is the negation of the current flag
  (`Events.TriggerTwiceRestoresFlag`).
- Highlighting does not compare the type key. Under the shared-selection
  assumption above, a folder selected in one type tab also highlights a folder
  with the same id in another tab's list (`TreeView.SelectedRowsAreHighlighted`
  holds for every list's type key).

## Model

| member | source | states |
|---|---|---|
| `Selection.Selection.Set` | src/renderer/src/components/feed-column/list.tsx:27 | the new selection is exactly the record passed in; nothing of the previous one is kept |
| `Selection.Matches` | src/renderer/src/components/feed-column/list.tsx:78-112 | a row's (level, id) matches only when a selection exists, and then iff the selection has that level and id; name and type key play no part |
| `TreeView.Badge` | src/renderer/src/components/feed-column/list.tsx:85 | a folder or feed row shows an unread badge iff its count is nonzero, and the badge shows that count |
| `TreeView.FolderRowOf` | src/renderer/src/components/feed-column/list.tsx:78-86 | a folder row carries the category's id and name, is highlighted iff the selection is a folder with that id, and has a badge iff the category's count is nonzero |
| `TreeView.FeedRowOf` | src/renderer/src/components/feed-column/list.tsx:110-128 | a feed row carries the feed's id, title and site URL, is highlighted iff the selection is a feed with that id, and has a badge iff the feed's count is nonzero |
| `TreeView.FeedRows` | src/renderer/src/components/feed-column/list.tsx:109-129 | a category's feed rows are one row per feed, in `data.list` order |
| `TreeView.CategoryRows` | src/renderer/src/components/feed-column/list.tsx:65-133 | a category shows its folder row first, followed, only while its flag is open, by one row per feed in order |
| `TreeView.ListRows` | src/renderer/src/components/feed-column/list.tsx:38-46 | the categories give at least one row each, no header row, and no rows at all when there are no categories |
| `TreeView.Rows` | src/renderer/src/components/feed-column/list.tsx:21-47 | the view starts with the one header row, labelled with the type key and showing the tree's unread count whenever the tree is present; without a tree the header is all there is |
| `TreeView.CategoryBlock` | src/renderer/src/components/feed-column/list.tsx:78-109 | a category renders exactly one folder row; its feed rows are its feeds in order while its flag is open and none while closed |
| `TreeView.FolderRowsInOrder` | src/renderer/src/components/feed-column/list.tsx:38-46 | the folder rows are the categories in tree order, one each, and they do not depend on any open flag |
| `TreeView.VisibleFeedsInOrder` | src/renderer/src/components/feed-column/list.tsx:88-131 | the feed rows shown are exactly the feeds of the open categories, in category order and then feed order |
| `TreeView.ClosedCategoriesShowNoFeeds` | src/renderer/src/components/feed-column/list.tsx:62-88 | while no category is open, as before any flag is set, no feed row is shown |
| `TreeView.AbsentTreeShowsHeaderOnly` | src/renderer/src/components/feed-column/list.tsx:36-38 | with no tree only the type header is shown, without an unread count |
| `TreeView.HighlightedRowsMatchSelection` | src/renderer/src/components/feed-column/list.tsx:24-112 | every highlighted row is a folder or feed row whose level and id are the selection's; the header is never highlighted |
| `TreeView.FolderAndFeedNeverBothHighlighted` | src/renderer/src/components/feed-column/list.tsx:78-112 | if a folder row is highlighted, no feed row is |
| `TreeView.TypeOrNoSelectionHighlightsNothing` | src/renderer/src/components/feed-column/list.tsx:24-112 | a type-level selection or no selection highlights no row |
| `TreeView.SelectedRowsAreHighlighted` | src/renderer/src/components/feed-column/list.tsx:78-112 | a selection matching a category's id highlights that folder row; one matching a feed of an open category highlights that feed row |
| `TreeView.SelectionMovesHighlight` | src/renderer/src/components/feed-column/list.tsx:68-121 | selecting a folder highlights its folder row and no feed row; then selecting one of its visible feeds highlights that feed's row and no folder row |
| `Events.Bubble` | src/renderer/src/components/feed-column/list.tsx:25-26 | a click produces at most one effect per handler on its path, and each effect is that of some handler on the path |
| `Events.HeaderHandler` | src/renderer/src/components/feed-column/list.tsx:25-33 | whatever handlers sit above it, a header click has exactly one effect: selecting the type with id, name and type all equal to the type key |
| `Events.FolderHandler` | src/renderer/src/components/feed-column/list.tsx:68-76 | whatever handlers sit above it, the folder handler has exactly one effect: selecting the folder by its id and name in this type |
| `Events.FeedHandler` | src/renderer/src/components/feed-column/list.tsx:113-121 | whatever handlers sit above it, the feed handler has exactly one effect: selecting the feed by its id and title in this type |
| `Events.TriggerHandler` | src/renderer/src/components/feed-column/list.tsx:80 | the trigger sets the category's flag to the reported value and then lets the click go on to every handler above it |
| `Events.Path` | src/renderer/src/components/feed-column/list.tsx:65-121 | a click's path has one or two handlers, the outermost stops propagation, and for a folder, trigger or feed click it is the enclosing category's folder handler; a feed click has this path whether its category is open or closing |
| `Events.TriggerClickEffect` | src/renderer/src/components/feed-column/list.tsx:67-82 | a trigger click reporting `o` stores `o` under the category's name and selects the folder |
| `Events.StoppedPathIgnoresOuter` | src/renderer/src/components/feed-column/list.tsx:113-114 | once a handler on the path stops propagation, no handler above it runs |
| `Events.DispatchEffects` | src/renderer/src/components/feed-column/list.tsx:25-121 | whatever sits above the list, a header, folder or feed click makes exactly one selection, for the row clicked; a trigger click sets the open flag and then selects the folder |
| `Events.SelectionsKeepOpenFlags` | src/renderer/src/components/feed-column/list.tsx:68-76 | selection changes alone leave all open flags as they were, and the last selection made is the current one |
| `Events.OpenChangesKeepSelection` | src/renderer/src/components/feed-column/list.tsx:67 | open-flag changes alone leave the selection as it was, and leave the flag of every name they do not touch |
| `Events.TriggerTwiceRestoresFlag` | src/renderer/src/components/feed-column/list.tsx:65-82 | two trigger clicks that each report the flipped flag flip it once and then restore it, and leave the folder selected |
| `FeedColumn.Names` | src/renderer/src/components/feed-column/list.tsx:38-40 | the mounted category keys are exactly the names of the categories in the tree, and none without a tree |
| `FeedColumn.FeedList.constructor` | src/renderer/src/components/feed-column/list.tsx:62 | a new list has no open flag set, so every category is closed |
| `FeedColumn.FeedList.Refresh` | src/renderer/src/components/feed-column/list.tsx:38-40 | after a new tree arrives, a flag survives iff a category of that name is still rendered, with its value unchanged |
| `FeedColumn.FeedList.ClickHeader` | src/renderer/src/components/feed-column/list.tsx:25-33 | the selection becomes `{type, type key, type key, type key}`; the open flags are untouched |
| `FeedColumn.FeedList.ClickFolder` | src/renderer/src/components/feed-column/list.tsx:68-76 | the selection becomes `{folder, category id, category name, type key}`; the open flags are untouched; the clicked folder's row is highlighted and no feed row is |
| `FeedColumn.FeedList.ClickFeed` | src/renderer/src/components/feed-column/list.tsx:113-121 | the selection becomes `{feed, feed id, feed title, type key}`, also for a click during the category's exit animation; the open flags are untouched; no folder row is highlighted, and while the category is open the feed's row is |
| `FeedColumn.FeedList.OpenChange` | src/renderer/src/components/feed-column/list.tsx:67 | the category's flag becomes the reported value; every other flag and the selection are unchanged |
| `FeedColumn.FeedList.ClickTrigger` | src/renderer/src/components/feed-column/list.tsx:65-82 | the category's flag becomes the reported value and the folder becomes selected |
| `FeedColumn.FeedList.Click` | src/renderer/src/components/feed-column/list.tsx:25-121 | the new selection and flags are the old ones with the bubbling path's effects applied in order |

## Left out

- The data fetching behind `useFeeds(type)`. The tree is an input of type `Option<Tree>`; `None` stands for a tree that has not arrived.
- Styling, the framer-motion transitions, `SiteIcon` and the CSS class strings. The rows record only what they show: text, site URL, highlight and badge.
- How the Radix collapsible computes the value it passes to `onOpenChange`. It is the parameter `o`.
- DOM event mechanics beyond "handlers run innermost first until one stops propagation". Handlers above the list are an arbitrary sequence `outer`.
- Unread counts are ints shown as given. JavaScript's `NaN`, non-number values and number formatting are not modelled.
- Duplicate category names: React warns about duplicate keys and its behaviour then is unspecified; the model lets such categories share one flag.
- The 0.2 s exit animation's timing. During it a closed category's feed rows stay on screen and can be clicked, so `Events.Clickable` admits a feed click whatever the category's flag; it also admits one long after the animation has ended.
- FeedColumn.FeedList.ClickFeed: the feed's row is promised highlighted only while the category is open, because the view models the rows of open categories and not the rows still on screen during the exit animation.
- The owner of the selection is outside `list.tsx`. That every type tab's list gets the same `activedList`/`setActivedList` pair is an assumption of the model.
- `vite.config.ts` and `server/lib/dev-vite.ts`: build configuration and dev-server bootstrap, with no behaviour of the list.
