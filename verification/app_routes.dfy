/** The single-page app's routes and how each is rendered. */
module AppRoutes {
  import opened Wrappers

  /** The app's routes. */
  datatype Route = Home | Login | MealList | NewMeal | MealDetail(id: string) | Reports | Profile | NotFound

  /** `is_protected`: every route needs a signed-in user except Login and NotFound. */
  function IsProtected(route: Route): (p: bool)
    ensures !p <==> route == Login || route == NotFound
    ensures route.MealDetail? ==> p
  {
    match route
    case Login => false
    case NotFound => false
    case _ => true
  }

  /** The page components. */
  datatype Page =
    | HomePage | LoginPage | MealListPage | MealEntryPage(id: Option<string>)
    | NutrientReportPage | ProfilePage | NotFoundPage

  /** The rendered tree, as far as the router is concerned. */
  datatype Html = AuthGuard(child: Html) | MainLayout(child: Html) | View(page: Page)

  /** `render_route`: one page per route; the meal routes open the entry page, with the id when there is one. */
  function RenderRoute(route: Route): (page: Page)
    ensures route.MealDetail? ==> page == MealEntryPage(Some(route.id))
    ensures route == NewMeal ==> page == MealEntryPage(None)
    ensures page.MealEntryPage? <==> route == NewMeal || route.MealDetail?
  {
    match route
    case Home => HomePage
    case Login => LoginPage
    case MealList => MealListPage
    case NewMeal => MealEntryPage(None)
    case MealDetail(id) => MealEntryPage(Some(id))
    case Reports => NutrientReportPage
    case Profile => ProfilePage
    case NotFound => NotFoundPage
  }

  /** `switch`: protected routes inside the guard and then the layout, the others in the layout alone. */
  function Switch(route: Route): (h: Html)
    ensures h.AuthGuard? <==> IsProtected(route)
    ensures (if h.AuthGuard? then h.child else h) == MainLayout(View(RenderRoute(route)))
  {
    var page := View(RenderRoute(route));
    if IsProtected(route) then AuthGuard(MainLayout(page)) else MainLayout(page)
  }

  /** Whether a rendered tree sits behind the guard. */
  predicate Guarded(h: Html) {
    h.AuthGuard?
  }

  /** Different routes render different pages, so no route is shadowed by another. */
  lemma RenderRouteInjective(a: Route, b: Route)
    ensures RenderRoute(a) == RenderRoute(b) <==> a == b
  {
  }

  /** Exactly the login and not-found pages are reachable without the guard. */
  lemma UnguardedPages(route: Route)
    ensures !Guarded(Switch(route)) <==> RenderRoute(route) in {LoginPage, NotFoundPage}
  {
  }
}
