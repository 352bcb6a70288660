/**
 * The navigation history service: the URL of every completed navigation, in
 * order, and the URL before the current one.
 */
module Navigation {
  import opened Wrappers

  class NavigationService {
    var history: seq<string>

    constructor ()
      ensures history == []
    {
      history := [];
    }

    /**
     * A navigation ended: its URL after redirects is appended, earlier entries
     * stay as they were, and the previous URL becomes the one that was current.
     */
    method OnNavigationEnd(urlAfterRedirects: string)
      modifies this
      ensures history == old(history) + [urlAfterRedirects]
      ensures history[..|old(history)|] == old(history)
      ensures old(history) != [] ==> GetPreviousUrl() == Some(old(history)[|old(history)| - 1])
    {
      history := history + [urlAfterRedirects];
    }

    /** The URL before the current one, or none when fewer than two navigations happened. */
    function GetPreviousUrl(): (r: Option<string>)
      reads this
      ensures r.None? <==> |history| <= 1
      ensures r.Some? ==> r.value == history[|history| - 2]
    {
      if |history| > 1 then Some(history[|history| - 2]) else None
    }
  }
}
