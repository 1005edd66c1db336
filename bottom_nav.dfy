/** The bottom navigation bar: which tab the current path selects, and where
    selecting a tab goes. */
module BottomNav {
  import opened Js
  import opened Http

  const DialerPath := "/dialer"
  const ContactsPath := "/contacts"
  const HistoryPath := "/history"

  /** `getCurrentValue`: the tab of a path; an unknown path selects the dialer tab. */
  function TabIndex(path: string): (i: int)
    ensures 0 <= i <= 2
    ensures i == 1 <==> path == ContactsPath
    ensures i == 2 <==> path == HistoryPath
    ensures i == 0 <==> path != ContactsPath && path != HistoryPath
  {
    if path == DialerPath then 0
    else if path == ContactsPath then 1
    else if path == HistoryPath then 2
    else 0
  }

  /** The path of a tab, when the index is one. */
  function TabPath(i: int): (p: Option<string>)
    ensures p.Some? <==> 0 <= i <= 2
  {
    if i == 0 then Some(DialerPath)
    else if i == 1 then Some(ContactsPath)
    else if i == 2 then Some(HistoryPath)
    else None
  }

  /** The `onChange` switch: a known tab navigates, any other index does nothing. */
  function OnChange(newValue: int): (effects: seq<Event>)
    ensures 0 <= newValue <= 2 ==> effects == [Navigate(TabPath(newValue).value)]
    ensures !(0 <= newValue <= 2) ==> effects == []
  {
    match TabPath(newValue)
    case Some(p) => [Navigate(p)]
    case None => []
  }

  /** Selecting a tab lands on a path that selects that same tab. */
  lemma TabRoundTrip(i: int)
    requires 0 <= i <= 2
    ensures TabIndex(TabPath(i).value) == i
    ensures OnChange(i) == [Navigate(TabPath(i).value)]
  {
  }

  /** Each tab's own path goes back to itself; every other path is shown as
      the dialer tab without being the dialer's path. */
  lemma PathRoundTrip(path: string)
    ensures TabPath(TabIndex(path)) == Some(path)
            <==> path == DialerPath || path == ContactsPath || path == HistoryPath
  {
  }

  /** The three tabs lead to three different paths. */
  lemma TabPathsDistinct(i: int, j: int)
    requires 0 <= i <= 2 && 0 <= j <= 2 && i != j
    ensures TabPath(i) != TabPath(j)
  {
    TabRoundTrip(i);
    TabRoundTrip(j);
  }
}
