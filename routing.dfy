/**
 * Page access in the front end: the guard every protected page sits behind,
 * and the table of pages with the role each one requires.
 */
module Routing {
  import opened Common

  /** What the guard shows. */
  datatype View = Placeholder | RedirectTo(path: string) | RenderChildren

  /**
   * The guard's decision from the session (`loading`, the signed-in user's
   * role if any) and the page's required role.
   */
  function Gate(loading: bool, role: Option<string>, required: Option<string>): (v: View)
    ensures loading ==> v == Placeholder
    ensures !loading && role.None? ==> v == RedirectTo("/login")
    ensures !loading && role.Some? && required.Some? && required.value != "" && role.value != required.value
            ==> v == RedirectTo("/dashboard")
    ensures v == RenderChildren <==>
            !loading && role.Some? && (required.None? || required.value == "" || role.value == required.value)
  {
    if loading then Placeholder
    else if role.None? then RedirectTo("/login")
    else if required.Some? && required.value != "" && role.value != required.value then RedirectTo("/dashboard")
    else RenderChildren
  }

  /** A path segment of a route pattern: a literal, or a `:param` that matches any non-empty segment. */
  datatype Segment = Lit(text: string) | Param

  /** What a route puts on screen. */
  datatype Element = Open | Guarded(required: Option<string>) | Forward(to: string)

  datatype Route = Route(pattern: seq<Segment>, element: Element)

  const Routes: seq<Route> := [
    Route([Lit("login")], Open),
    Route([Lit("register")], Open),
    Route([Lit("dashboard")], Guarded(None)),
    Route([Lit("classes")], Guarded(Some("teacher"))),
    Route([Lit("classes"), Param], Guarded(Some("teacher"))),
    Route([Lit("tasks")], Guarded(Some("teacher"))),
    Route([Lit("my-classes")], Guarded(Some("student"))),
    Route([Lit("my-tasks")], Guarded(Some("student"))),
    Route([Lit("tasks"), Param, Lit("editor")], Guarded(Some("student"))),
    Route([Lit("submissions")], Guarded(None)),
    Route([Lit("submissions"), Lit("classes"), Param], Guarded(Some("teacher"))),
    Route([Lit("submissions"), Param], Guarded(None)),
    Route([Lit("admin")], Guarded(Some("admin"))),
    Route([], Forward("/dashboard"))
  ]

  /**
   * A path, split at its slashes, fits a pattern. Routes match without regard
   * to case: every literal of the table is lower-case, so comparing the
   * lower-cased segment with it is the router's case-insensitive comparison.
   */
  predicate Fits(pattern: seq<Segment>, path: seq<string>) {
    |pattern| == |path| &&
    forall i :: 0 <= i < |path| ==>
      (if pattern[i].Lit? then Lower(path[i]) == pattern[i].text else path[i] != "")
  }

  /**
   * Every literal of the table is its own lower case, so a segment fits a
   * literal exactly when the two agree once both are lower-cased.
   */
  lemma LiteralsLowerCase(i: nat, j: nat, segment: string)
    requires i < |Routes| && j < |Routes[i].pattern| && Routes[i].pattern[j].Lit?
    ensures Lower(Routes[i].pattern[j].text) == Routes[i].pattern[j].text
    ensures Lower(segment) == Routes[i].pattern[j].text <==> Lower(segment) == Lower(Routes[i].pattern[j].text)
  {
    var t := Routes[i].pattern[j].text;
    assert t in {"login", "register", "dashboard", "classes", "tasks", "my-classes", "my-tasks", "editor",
                 "submissions", "admin"};
    LowerOfLowerCase(t);
  }

  /** A text with no upper-case ASCII letter is its own lower case. */
  lemma LowerOfLowerCase(s: string)
    requires forall k :: 0 <= k < |s| ==> !('A' <= s[k] <= 'Z')
    ensures Lower(s) == s
  {
  }

  /** A pathname without its trailing slashes. */
  function TrimSlashes(p: string): (r: string)
    ensures r <= p
    ensures forall k :: |r| <= k < |p| ==> p[k] == '/'
    ensures r == [] || r[|r| - 1] != '/'
  {
    if p != [] && p[|p| - 1] == '/' then TrimSlashes(p[..|p| - 1]) else p
  }

  /** `s.split("/")`: the pieces between the slashes, none of them holding one. */
  function Split(s: string): (r: seq<string>)
    ensures |r| >= 1
    ensures forall k :: 0 <= k < |r| ==> '/' !in r[k]
  {
    if s == [] then [""]
    else
      var rest := Split(s[1..]);
      if s[0] == '/' then [""] + rest else [[s[0]] + rest[0]] + rest[1..]
  }

  /** Joining the pieces with slashes gives the text back. */
  lemma {:induction false} SplitJoins(s: string)
    ensures Join(Split(s), "/") == s
  {
    if s != [] {
      var rest := Split(s[1..]);
      SplitJoins(s[1..]);
      if s[0] == '/' {
        assert ([""] + rest)[1..] == rest;
        assert s == "/" + s[1..];
      } else if |rest| == 1 {
        assert s == [s[0]] + s[1..];
      } else {
        var r := [[s[0]] + rest[0]] + rest[1..];
        assert r[1..] == rest[1..];
        assert Join(rest, "/") == rest[0] + "/" + Join(rest[1..], "/");
        assert s == [s[0]] + s[1..];
      }
    }
  }

  /** A text without a slash is a single piece. */
  lemma {:induction false} SplitWithoutSlash(s: string)
    requires '/' !in s
    ensures Split(s) == [s]
  {
    if s != [] {
      assert '/' !in s[1..];
      SplitWithoutSlash(s[1..]);
      assert [s[0]] + s[1..] == s;
    }
  }

  /**
   * The segments a location's pathname (which always starts with a slash) is
   * matched by: its trailing slashes are dropped, and what follows the
   * leading slash is split at each slash.
   */
  function Segments(pathname: string): (r: seq<string>)
    requires pathname != [] && pathname[0] == '/'
    ensures forall k :: 0 <= k < |r| ==> '/' !in r[k]
    ensures r == [] <==> forall k :: 0 <= k < |pathname| ==> pathname[k] == '/'
    ensures r != [] ==> TrimSlashes(pathname) == "/" + Join(r, "/")
  {
    var t := TrimSlashes(pathname);
    if t == [] then []
    else
      assert t[|t| - 1] == pathname[|t| - 1] != '/';
      assert t == "/" + t[1..];
      SplitJoins(t[1..]);
      Split(t[1..])
  }

  /** Any number of trailing slashes leaves the matched segments unchanged. */
  lemma TrailingSlashIgnored(pathname: string)
    requires pathname != [] && pathname[0] == '/'
    ensures Segments(pathname + "/") == Segments(pathname)
  {
    assert (pathname + "/")[..|pathname|] == pathname;
  }

  /** No two routes have the same number of segments and the same first literal. */
  lemma RouteKeysDistinct(i: nat, j: nat)
    requires i < |Routes| && j < |Routes|
    requires |Routes[i].pattern| == |Routes[j].pattern|
    requires Routes[i].pattern != [] ==> Routes[i].pattern[0] == Routes[j].pattern[0]
    ensures i == j
  {
  }

  /** Distinct routes never fit the same path, so the table's order does not matter. */
  lemma RoutesDisjoint(path: seq<string>, i: nat, j: nat)
    requires i < |Routes| && j < |Routes|
    requires Fits(Routes[i].pattern, path) && Fits(Routes[j].pattern, path)
    ensures i == j
  {
    var p, q := Routes[i].pattern, Routes[j].pattern;
    if p != [] {
      assert p[0].Lit? && q[0].Lit?;
      assert p[0].text == Lower(path[0]) == q[0].text;
    }
    RouteKeysDistinct(i, j);
  }

  /** The view a path produces: `None` when no route fits it (nothing is rendered). */
  function Visit(path: seq<string>, loading: bool, role: Option<string>): (v: Option<View>)
    ensures v.None? <==> forall i :: 0 <= i < |Routes| ==> !Fits(Routes[i].pattern, path)
  {
    VisitFrom(path, loading, role, 0)
  }

  function VisitFrom(path: seq<string>, loading: bool, role: Option<string>, k: nat): (v: Option<View>)
    requires k <= |Routes|
    ensures v.None? <==> forall i :: k <= i < |Routes| ==> !Fits(Routes[i].pattern, path)
    ensures v.Some? ==> exists i :: k <= i < |Routes| && Fits(Routes[i].pattern, path) && v.value == Show(Routes[i].element, loading, role)
    decreases |Routes| - k
  {
    if k == |Routes| then None
    else if Fits(Routes[k].pattern, path) then Some(Show(Routes[k].element, loading, role))
    else VisitFrom(path, loading, role, k + 1)
  }

  function Show(element: Element, loading: bool, role: Option<string>): View {
    match element
    case Open => RenderChildren
    case Guarded(required) => Gate(loading, role, required)
    case Forward(to) => RedirectTo(to)
  }

  /** Two paths whose segments agree once lower-cased give the same view, from any table position on. */
  lemma {:induction false} VisitFromIgnoresCase(path: seq<string>, other: seq<string>, loading: bool,
                                                role: Option<string>, k: nat)
    requires k <= |Routes|
    requires |path| == |other| && forall i :: 0 <= i < |path| ==> Lower(path[i]) == Lower(other[i])
    ensures VisitFrom(path, loading, role, k) == VisitFrom(other, loading, role, k)
    decreases |Routes| - k
  {
    if k < |Routes| {
      assert forall i :: 0 <= i < |path| ==> (path[i] == "" <==> other[i] == "") by {
        forall i | 0 <= i < |path|
          ensures path[i] == "" <==> other[i] == ""
        {
          assert |Lower(path[i])| == |path[i]| && |Lower(other[i])| == |other[i]|;
        }
      }
      assert Fits(Routes[k].pattern, path) == Fits(Routes[k].pattern, other);
      VisitFromIgnoresCase(path, other, loading, role, k + 1);
    }
  }

  /** Case does not matter: paths that agree once lower-cased render the same view. */
  lemma VisitIgnoresCase(path: seq<string>, other: seq<string>, loading: bool, role: Option<string>)
    requires |path| == |other| && forall i :: 0 <= i < |path| ==> Lower(path[i]) == Lower(other[i])
    ensures Visit(path, loading, role) == Visit(other, loading, role)
  {
    VisitFromIgnoresCase(path, other, loading, role, 0);
  }

  /** The view of the route that fits a path. */
  lemma VisitShowsFittingRoute(path: seq<string>, loading: bool, role: Option<string>, i: nat)
    requires i < |Routes| && Fits(Routes[i].pattern, path)
    ensures Visit(path, loading, role) == Some(Show(Routes[i].element, loading, role))
  {
    var v := Visit(path, loading, role);
    assert v.Some?;
    var j :| 0 <= j < |Routes| && Fits(Routes[j].pattern, path) && v.value == Show(Routes[j].element, loading, role);
    RoutesDisjoint(path, i, j);
  }

  /** /login and /register render for anyone, even while the session is loading. */
  lemma SignInPagesOpen(loading: bool, role: Option<string>)
    ensures Visit(["login"], loading, role) == Some(RenderChildren)
    ensures Visit(["register"], loading, role) == Some(RenderChildren)
  {
    LowerOfLowerCase("login");
    assert Fits(Routes[0].pattern, ["login"]);
    VisitShowsFittingRoute(["login"], loading, role, 0);
    LowerOfLowerCase("register");
    assert Fits(Routes[1].pattern, ["register"]);
    VisitShowsFittingRoute(["register"], loading, role, 1);
  }

  /** The root forwards to /dashboard. */
  lemma RootForwards(loading: bool, role: Option<string>)
    ensures Visit([], loading, role) == Some(RedirectTo("/dashboard"))
  {
    VisitShowsFittingRoute([], loading, role, 13);
  }

  /** The class pages, the task list and a class's submissions render for teachers only. */
  lemma TeacherPages(path: seq<string>, id: string, loading: bool, role: Option<string>)
    requires id != ""
    requires path == ["classes"] || path == ["classes", id] || path == ["tasks"] ||
             path == ["submissions", "classes", id]
    ensures Visit(path, loading, role) == Some(Gate(loading, role, Some("teacher")))
  {
    if path == ["classes"] {
      LowerOfLowerCase("classes");
      assert Fits(Routes[3].pattern, path);
      VisitShowsFittingRoute(path, loading, role, 3);
      assert Routes[3].element == Guarded(Some("teacher"));
    } else if path == ["classes", id] {
      LowerOfLowerCase("classes");
      assert Fits(Routes[4].pattern, path);
      VisitShowsFittingRoute(path, loading, role, 4);
      assert Routes[4].element == Guarded(Some("teacher"));
    } else if path == ["tasks"] {
      LowerOfLowerCase("tasks");
      assert Fits(Routes[5].pattern, path);
      VisitShowsFittingRoute(path, loading, role, 5);
      assert Routes[5].element == Guarded(Some("teacher"));
    } else {
      LowerOfLowerCase("submissions");
      LowerOfLowerCase("classes");
      assert Fits(Routes[10].pattern, path);
      VisitShowsFittingRoute(path, loading, role, 10);
      assert Routes[10].element == Guarded(Some("teacher"));
    }
  }

  /** The student's class and task pages and the editor render for students only. */
  lemma StudentPages(path: seq<string>, id: string, loading: bool, role: Option<string>)
    requires id != ""
    requires path == ["my-classes"] || path == ["my-tasks"] || path == ["tasks", id, "editor"]
    ensures Visit(path, loading, role) == Some(Gate(loading, role, Some("student")))
  {
    if path == ["my-classes"] {
      LowerOfLowerCase("my-classes");
      assert Fits(Routes[6].pattern, path);
      VisitShowsFittingRoute(path, loading, role, 6);
      assert Routes[6].element == Guarded(Some("student"));
    } else if path == ["my-tasks"] {
      LowerOfLowerCase("my-tasks");
      assert Fits(Routes[7].pattern, path);
      VisitShowsFittingRoute(path, loading, role, 7);
      assert Routes[7].element == Guarded(Some("student"));
    } else {
      LowerOfLowerCase("tasks");
      LowerOfLowerCase("editor");
      assert Fits(Routes[8].pattern, path);
      VisitShowsFittingRoute(path, loading, role, 8);
      assert Routes[8].element == Guarded(Some("student"));
    }
  }

  /** "/ADMIN/" is the admin page: the case of the letters and a trailing slash do not matter. */
  lemma AdminInAnyCase(loading: bool, role: Option<string>)
    ensures Visit(Segments("/ADMIN/"), loading, role) == Some(Gate(loading, role, Some("admin")))
  {
    assert "/ADMIN/"[..6] == "/ADMIN";
    assert TrimSlashes("/ADMIN/") == "/ADMIN";
    assert "/ADMIN"[1..] == "ADMIN";
    SplitWithoutSlash("ADMIN");
    assert Segments("/ADMIN/") == ["ADMIN"];
    assert Lower("ADMIN") == "admin";
    assert Fits(Routes[12].pattern, ["ADMIN"]);
    VisitShowsFittingRoute(["ADMIN"], loading, role, 12);
  }

  /** /admin requires the admin role. */
  lemma AdminPage(path: seq<string>, loading: bool, role: Option<string>)
    requires path == ["admin"]
    ensures Visit(path, loading, role) == Some(Gate(loading, role, Some("admin")))
  {
    LowerOfLowerCase("admin");
    assert Fits(Routes[12].pattern, path);
    VisitShowsFittingRoute(path, loading, role, 12);
  }

  /** The dashboard and the submission pages need only a signed-in user. */
  lemma SignedInPages(path: seq<string>, id: string, loading: bool, role: Option<string>)
    requires id != ""
    requires path == ["dashboard"] || path == ["submissions"] || path == ["submissions", id]
    ensures Visit(path, loading, role) == Some(Gate(loading, role, None))
  {
    if path == ["dashboard"] {
      LowerOfLowerCase("dashboard");
      assert Fits(Routes[2].pattern, path);
      VisitShowsFittingRoute(path, loading, role, 2);
      assert Routes[2].element == Guarded(None);
    } else if path == ["submissions"] {
      LowerOfLowerCase("submissions");
      assert Fits(Routes[9].pattern, path);
      VisitShowsFittingRoute(path, loading, role, 9);
      assert Routes[9].element == Guarded(None);
    } else {
      LowerOfLowerCase("submissions");
      assert Fits(Routes[11].pattern, path);
      VisitShowsFittingRoute(path, loading, role, 11);
      assert Routes[11].element == Guarded(None);
    }
  }
}
