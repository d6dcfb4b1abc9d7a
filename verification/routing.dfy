/** URL selection in `_getJSON` (script.js): the collection, one task, or one task's toggle action. */
module Routing {
  import opened Wrappers

  /** The REST collection every task request goes to. */
  const TodoUrl := "https://todo.hillel.it/todo"
  const ToggleSuffix := "/toggle"

  /**
   The URL `_getJSON` fetches: the base itself when no id is given; otherwise the
   task's own URL (base, a slash, the id), with `/toggle` added when the toggle
   flag is set. `Route` below is its inverse.
   */
  function Url(base: string, id: Option<string>, toggle: bool): (u: string)
    ensures |u| >= |base| && u[..|base|] == base
    ensures u == base <==> id.None?
  {
    if id.None? then base
    else if !toggle then base + "/" + id.value
    else base + "/" + id.value + ToggleSuffix
  }

  /** An id that occupies exactly one path segment. */
  predicate Segment(s: string) {
    '/' !in s
  }

  /**
   Reads back the `(id, toggle)` a URL under `base` was built from: the bare base
   names the collection, one segment names a task, and a segment followed by
   `/toggle` names that task's toggle action.
   */
  function Route(base: string, u: string): Option<(Option<string>, bool)>
  {
    if |u| < |base| || u[..|base|] != base then None
    else
      var rest := u[|base|..];
      if rest == [] then Some((None, false))
      else if rest[0] != '/' then None
      else ItemRoute(rest[1..])
  }

  /** The route of the path after `base/`: a task id, optionally followed by `/toggle`. */
  function ItemRoute(path: string): Option<(Option<string>, bool)>
  {
    var n := |path| - |ToggleSuffix|;
    if Segment(path) then Some((Some(path), false))
    else if n >= 0 && path[n..] == ToggleSuffix && Segment(path[..n]) then Some((Some(path[..n]), true))
    else None
  }

  /**
   For ids of one path segment the URL determines the route: `Route` recovers
   the id, and the toggle flag whenever an id is given (without an id the flag
   is ignored).
   */
  lemma {:induction false} RouteOfUrl(base: string, id: Option<string>, toggle: bool)
    requires id.Some? ==> Segment(id.value)
    ensures Route(base, Url(base, id, toggle)) == Some((id, id.Some? && toggle))
  {
    var u := Url(base, id, toggle);
    assert u[..|base|] == base;
    if id.Some? {
      var rest := u[|base|..];
      assert rest[0] == '/';
      var path := rest[1..];
      if toggle {
        assert path == id.value + ToggleSuffix;
        assert path[|path| - |ToggleSuffix|..] == ToggleSuffix;
        assert path[..|path| - |ToggleSuffix|] == id.value;
        assert path[|id.value|] == '/';
        assert !Segment(path);
      } else {
        assert path == id.value;
      }
    }
  }

  /** Conversely, every URL `Route` accepts is the one `_getJSON` builds for that route. */
  lemma {:induction false} UrlOfRoute(base: string, u: string)
    requires Route(base, u).Some?
    ensures var (id, toggle) := Route(base, u).value;
      (id.Some? ==> Segment(id.value)) && Url(base, id, toggle) == u
  {
    var rest := u[|base|..];
    assert u == base + rest;
    if rest != [] {
      assert rest == "/" + rest[1..];
      UrlOfItemRoute(base, rest[1..]);
    }
  }

  /** The item half of `UrlOfRoute`: an accepted path is rebuilt exactly after `base/`. */
  lemma UrlOfItemRoute(base: string, path: string)
    requires ItemRoute(path).Some?
    ensures var (id, toggle) := ItemRoute(path).value;
      id.Some? && Segment(id.value) && Url(base, id, toggle) == base + "/" + path
  {
    if !Segment(path) {
      var n := |path| - |ToggleSuffix|;
      assert path == path[..n] + ToggleSuffix;
    }
  }

  /**
   An id containing `/toggle` is not told apart: editing task `a/toggle` and
   toggling task `a` fetch the same URL.
   */
  lemma SlashInIdCollides(base: string)
    ensures Url(base, Some("a/toggle"), false) == Url(base, Some("a"), true)
  {
  }
}
