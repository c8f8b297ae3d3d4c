/**
 * The front end's routing (App.jsx): the public routes, the token gate of
 * `ProtectedRoutes` and its table of eight pages, and the sidebar's links
 * (Sidebar.jsx) that lead into that table.
 */
module Routes {
  datatype Page =
    | Landing | Login
    | Overview | LivePrediction | Analytics | ModelPerformance
    | UploadData | Reports | AboutModel | Settings

  /** What the router does with a location: render a page, or `<Navigate replace>` to another path. */
  datatype Outcome = Render(page: Page) | Redirect(to: string)

  /** The `<Routes>` table inside `ProtectedRoutes`, without its `*` fallback. */
  const ProtectedTable: seq<(string, Page)> := [
    ("/dashboard", Overview),
    ("/dashboard/live-prediction", LivePrediction),
    ("/dashboard/analytics", Analytics),
    ("/dashboard/model-performance", ModelPerformance),
    ("/upload-data", UploadData),
    ("/reports", Reports),
    ("/about-model", AboutModel),
    ("/settings", Settings)
  ]

  /** The paths of the sidebar's `links`, in their order. */
  const SidebarPaths: seq<string> := [
    "/dashboard",
    "/dashboard/live-prediction",
    "/dashboard/analytics",
    "/dashboard/model-performance",
    "/upload-data",
    "/reports",
    "/about-model",
    "/settings"
  ]

  /** The page of the first table entry whose path is `path`, if any. */
  function Lookup(table: seq<(string, Page)>, path: string): (r: Match)
    ensures r.Found? <==> exists i :: 0 <= i < |table| && table[i].0 == path
    ensures r.Found? ==> exists i :: 0 <= i < |table| && table[i] == (path, r.page)
  {
    if table == [] then NotFound
    else if table[0].0 == path then Found(table[0].1)
    else Lookup(table[1..], path)
  }

  datatype Match = NotFound | Found(page: Page)

  /** `ProtectedRoutes`: with no token, to the login page; otherwise the table, and `/dashboard` for anything else. */
  function ProtectedRoutes(path: string, token: string): Outcome {
    if token == "" then Redirect("/login")
    else match Lookup(ProtectedTable, path)
      case Found(p) => Render(p)
      case NotFound => Redirect("/dashboard")
  }

  /** `App`: `/` and `/login` are public, every other path goes through `ProtectedRoutes`. */
  function App(path: string, token: string): Outcome {
    if path == "/" then Render(Landing)
    else if path == "/login" then Render(Login)
    else ProtectedRoutes(path, token)
  }

  /** The two public routes render whatever the token. */
  lemma PublicRoutes(token: string)
    ensures App("/", token) == Render(Landing)
    ensures App("/login", token) == Render(Login)
  {
  }

  /** Without a token, every path other than `/` and `/login` is sent to `/login`. */
  lemma NoTokenRedirectsToLogin(path: string)
    requires path != "/" && path != "/login"
    ensures App(path, "") == Redirect("/login")
  {
  }

  /** The eight protected paths are pairwise distinct. */
  lemma ProtectedPathsDistinct()
    ensures forall i, j :: 0 <= i < j < |ProtectedTable| ==> ProtectedTable[i].0 != ProtectedTable[j].0
  {
  }

  /** With a token, each listed path renders its own page. */
  lemma ProtectedPagesRender(token: string)
    requires token != ""
    ensures forall i :: 0 <= i < |ProtectedTable| ==> App(ProtectedTable[i].0, token) == Render(ProtectedTable[i].1)
  {
    forall i | 0 <= i < |ProtectedTable|
      ensures App(ProtectedTable[i].0, token) == Render(ProtectedTable[i].1)
    {
      var path := ProtectedTable[i].0;
      assert path != "/" && path != "/login";
      ProtectedPathsDistinct();
      assert Lookup(ProtectedTable, path) == Found(ProtectedTable[i].1);
    }
  }

  /** With a token, a path that is not listed (and not public) is sent to `/dashboard`. */
  lemma UnlistedPathRedirectsToDashboard(path: string, token: string)
    requires token != "" && path != "/" && path != "/login"
    requires forall i :: 0 <= i < |ProtectedTable| ==> ProtectedTable[i].0 != path
    ensures App(path, token) == Redirect("/dashboard")
  {
  }

  /** Every redirect lands on a path that renders, so one redirect at most is ever followed. */
  lemma RedirectsSettle(path: string, token: string)
    ensures App(path, token).Redirect? ==> App(App(path, token).to, token).Render?
  {
    if App(path, token).Redirect? && token != "" {
      assert App(path, token).to == "/dashboard";
      assert Lookup(ProtectedTable, "/dashboard") == Found(Overview);
    }
  }

  /** Each sidebar link is a listed protected path, so no link falls through to the `*` route. */
  lemma SidebarLinksAreRoutes(token: string)
    requires token != ""
    ensures forall k :: 0 <= k < |SidebarPaths| ==>
      App(SidebarPaths[k], token).Render? && App(SidebarPaths[k], token).page != Landing
  {
    ProtectedPagesRender(token);
    forall k | 0 <= k < |SidebarPaths|
      ensures App(SidebarPaths[k], token).Render? && App(SidebarPaths[k], token).page != Landing
    {
      assert SidebarPaths[k] == ProtectedTable[k].0;
    }
  }
}
