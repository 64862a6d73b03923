/** The single-page router of the web client: the current page name and
    its parameter, the redirect the authentication state imposes, and the
    page the `switch` renders. */
module AppRouter {
  import opened Common
  import opened Json

  /** The pages an unauthenticated visitor is sent away from. */
  const ProtectedPages: set<string> := {
    "dashboard", "parcelles", "addParcelle", "editParcelle", "parcelleDetail", "elevage", "meteo",
    "gemini", "culturesList", "cultureDetail", "addCulture", "editCulture", "communauteCreatePost"
  }

  /** The pages that render whatever the authentication state. */
  const PublicPages: set<string> := {
    "home", "login", "register", "prix", "communauteCategories", "communautePostsList", "communautePostDetail"
  }

  /** The page names the `switch` has a case for. */
  const KnownPages: set<string> := ProtectedPages + PublicPages

  /** The page components, with the properties taken from the parameter. */
  datatype Page =
    | Home | Login | Register | Dashboard
    | ParcellesList | ParcelleForm(editedParcelle: Option<Json>) | ParcelleDetail(parcelleId: Json)
    | CulturesList | CultureDetail(cultureId: Json) | CultureForm(editedCulture: Option<Json>)
    | Elevage | Prix | Meteo
    | CategoriesList | PostsList(categorieId: Option<Json>) | PostDetail(postId: Option<Json>)
    | CreatePost(categorieId: Option<Json>)
    | Gemini | NotFound

  /** What the router renders: the spinner while authentication loads,
      otherwise the page inside the main layout. */
  datatype View = Spinner | Layout(page: Page)

  /** `pageParam?.key`: no property of `null` or of a non-object. */
  function Property(param: Json, key: string): Option<Json>
  {
    Get(param, key)
  }

  /** A guarded case: the page when authenticated, the login page when
      not. */
  function Guard(isAuthenticated: bool, p: Page): Page
  {
    if isAuthenticated then p else Login
  }

  /** The `switch (currentPage)`. */
  function PageFor(currentPage: string, pageParam: Json, isAuthenticated: bool): Page
  {
    match currentPage
    case "home" => Home
    case "login" => Login
    case "register" => Register
    case "dashboard" => Guard(isAuthenticated, Dashboard)
    case "parcelles" => Guard(isAuthenticated, ParcellesList)
    case "addParcelle" => Guard(isAuthenticated, ParcelleForm(None))
    case "editParcelle" => Guard(isAuthenticated, ParcelleForm(Some(pageParam)))
    case "parcelleDetail" => Guard(isAuthenticated, ParcelleDetail(pageParam))
    case "culturesList" => Guard(isAuthenticated, CulturesList)
    case "cultureDetail" => Guard(isAuthenticated, CultureDetail(pageParam))
    case "addCulture" => Guard(isAuthenticated, CultureForm(None))
    case "editCulture" => Guard(isAuthenticated, CultureForm(Some(pageParam)))
    case "elevage" => Guard(isAuthenticated, Elevage)
    case "prix" => Prix
    case "meteo" => Guard(isAuthenticated, Meteo)
    case "communauteCategories" => CategoriesList
    case "communautePostsList" => PostsList(Property(pageParam, "categorieId"))
    case "communautePostDetail" => PostDetail(Property(pageParam, "postId"))
    case "communauteCreatePost" => Guard(isAuthenticated, CreatePost(Property(pageParam, "categorieId")))
    case "gemini" => Guard(isAuthenticated, Gemini)
    case _ => NotFound
  }

  /** What the router returns for a state. */
  function Render(currentPage: string, pageParam: Json, isAuthenticated: bool, authLoading: bool): (v: View)
    ensures authLoading <==> v == Spinner
    ensures !authLoading ==> v == Layout(PageFor(currentPage, pageParam, isAuthenticated))
  {
    if authLoading then Spinner else Layout(PageFor(currentPage, pageParam, isAuthenticated))
  }

  /** The page the effect navigates to, if any: none while loading; an
      authenticated visitor on `login` or `register` goes to the
      dashboard, an unauthenticated one on a protected page to `login`. */
  function Redirect(currentPage: string, isAuthenticated: bool, authLoading: bool): (r: Option<string>)
    ensures r.Some? ==> !authLoading
    ensures r == Some("dashboard") <==> !authLoading && isAuthenticated && (currentPage == "login" || currentPage == "register")
    ensures r == Some("login") <==> !authLoading && !isAuthenticated && currentPage in ProtectedPages
    ensures r.Some? ==> r == Some("dashboard") || r == Some("login")
  {
    if authLoading then None
    else if isAuthenticated then
      if currentPage == "login" || currentPage == "register" then Some("dashboard") else None
    else if currentPage in ProtectedPages then Some("login")
    else None
  }

  /** Redirecting is idempotent: the page a redirect leads to asks for no
      further redirect under the same authentication state. */
  lemma RedirectSettles(currentPage: string, isAuthenticated: bool, authLoading: bool)
    requires Redirect(currentPage, isAuthenticated, authLoading).Some?
    ensures Redirect(Redirect(currentPage, isAuthenticated, authLoading).value, isAuthenticated, authLoading).None?
  {
    assert "login" !in ProtectedPages;
  }

  /** An unauthenticated visitor gets the login page exactly on `login`
      and the guarded pages, which are the protected ones. */
  lemma UnauthenticatedSeesLogin(currentPage: string, pageParam: Json)
    ensures PageFor(currentPage, pageParam, false) == Login <==> currentPage == "login" || currentPage in ProtectedPages
  {
  }

  /** An authenticated visitor gets the login page only on `login`. */
  lemma AuthenticatedSeesPage(currentPage: string, pageParam: Json)
    ensures PageFor(currentPage, pageParam, true) == Login <==> currentPage == "login"
  {
  }

  /** The public pages render the same whatever the authentication. */
  lemma PublicIgnoresAuth(currentPage: string, pageParam: Json)
    requires currentPage in PublicPages
    ensures PageFor(currentPage, pageParam, true) == PageFor(currentPage, pageParam, false)
  {
  }

  /** The not-found page is the answer exactly for names with no case;
      `cultures`, `localiseme` and `communaute`, which the navigation bar
      emits, are among them. */
  lemma UnknownIsNotFound(currentPage: string, pageParam: Json, isAuthenticated: bool)
    ensures PageFor(currentPage, pageParam, isAuthenticated) == NotFound <==> currentPage !in KnownPages
    ensures currentPage in {"cultures", "localiseme", "communaute"} ==> PageFor(currentPage, pageParam, isAuthenticated) == NotFound
  {
  }

  /** Once the effect has run, an unauthenticated visitor is never shown a
      protected page: the page it leaves renders as the login page. */
  lemma SettledNeverShowsProtected(currentPage: string, pageParam: Json)
    ensures var next := if Redirect(currentPage, false, false).Some? then Redirect(currentPage, false, false).value else currentPage;
      next !in ProtectedPages &&
      (currentPage in ProtectedPages ==> Render(next, JNull, false, false) == Layout(Login))
  {
    assert "login" !in ProtectedPages;
  }

  /** The router's state. */
  class Router {
    var currentPage: string
    var pageParam: Json

    /** `useState('home')` and `useState(null)`. */
    constructor()
      ensures currentPage == "home" && pageParam == JNull
    {
      currentPage := "home";
      pageParam := JNull;
    }

    /** `navigateTo(page, param = null)`: both together; an absent
        parameter is `null`. Scrolling is not modelled. */
    method NavigateTo(page: string, param: Option<Json>)
      modifies this
      ensures currentPage == page
      ensures pageParam == if param.Some? then param.value else JNull
    {
      currentPage := page;
      pageParam := if param.Some? then param.value else JNull;
    }

    /** The redirect effect, as React runs it after a render. */
    method Effect(isAuthenticated: bool, authLoading: bool)
      modifies this
      ensures match Redirect(old(currentPage), isAuthenticated, authLoading)
        case Some(target) => currentPage == target && pageParam == JNull
        case None => currentPage == old(currentPage) && pageParam == old(pageParam)
    {
      if !authLoading {
        if isAuthenticated {
          if currentPage == "login" || currentPage == "register" {
            NavigateTo("dashboard", None);
          }
        } else {
          if currentPage in ProtectedPages {
            NavigateTo("login", None);
          }
        }
      }
    }

    /** The effect runs again when it changes the page; that second run
        changes nothing, so the state the first run leaves is stable. */
    method EffectTwice(isAuthenticated: bool, authLoading: bool)
      modifies this
      ensures Redirect(currentPage, isAuthenticated, authLoading).None?
      ensures match Redirect(old(currentPage), isAuthenticated, authLoading)
        case Some(target) => currentPage == target && pageParam == JNull
        case None => currentPage == old(currentPage) && pageParam == old(pageParam)
    {
      Effect(isAuthenticated, authLoading);
      if Redirect(old(currentPage), isAuthenticated, authLoading).Some? {
        RedirectSettles(old(currentPage), isAuthenticated, authLoading);
      }
      Effect(isAuthenticated, authLoading);
    }
  }
}
