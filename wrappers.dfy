/** The optional value used wherever the component reads something that may be
    absent: the current selection (`activedList?.`) and the fetched tree (`feeds.data?.`). */
module Wrappers {
  datatype Option<+T> = None | Some(value: T)
}
