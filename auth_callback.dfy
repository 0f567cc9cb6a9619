/** The decision of src/app/auth-callback/page.tsx: what the page shows, and where it sends
    the browser, given the state of the `authCallback` query. */
module AuthCallback {
  import opened Wrappers

  datatype ErrorData = ErrorData(code: string)
  /** A tRPC error; `data` may be absent. */
  datatype QueryError = QueryError(data: Option<ErrorData>)
  datatype AuthData = AuthData(success: bool)

  datatype Screen = Spinner | Blank | Fallback
  /** What the page renders and the `router.push` it makes, if any. */
  datatype Decision = Decision(screen: Screen, navigateTo: Option<string>)

  /** `origin ? `/${origin}` : `/dashboard``: an empty or missing origin is falsy. */
  function RedirectTarget(origin: Option<string>): string {
    if origin.Some? && origin.value != "" then "/" + origin.value else "/dashboard"
  }

  /** The target is always a path, and a non-empty origin can be read back from it, so
      distinct origins go to distinct pages; the one origin that collides with having none
      is "dashboard". */
  lemma RedirectTargetReadsBack(origin: Option<string>, other: Option<string>)
    ensures var target := RedirectTarget(origin);
      |target| > 1 && target[0] == '/'
      && (origin.Some? && origin.value != "" ==> target[1..] == origin.value)
      && (origin.None? || origin.value == "" ==> target[1..] == "dashboard")
    ensures origin.Some? && origin.value != "" && other.Some? && other.value != "" ==>
      (RedirectTarget(origin) == RedirectTarget(other) <==> origin == other)
    ensures RedirectTarget(Some("dashboard")) == RedirectTarget(None)
  {
    var target := RedirectTarget(origin);
    if origin.Some? && origin.value != "" {
      assert target[1..] == origin.value;
    } else {
      assert target[1..] == "dashboard";
    }
    if other.Some? && other.value != "" {
      assert RedirectTarget(other)[1..] == other.value;
    }
  }

  /** The cascade of `if`s of the page. */
  function Decide(isLoading: bool, error: Option<QueryError>, data: Option<AuthData>, origin: Option<string>)
    : (d: Decision)
    ensures isLoading ==> d == Decision(Spinner, None)
    ensures !isLoading && error.Some? && error.value.data.Some? ==>
      d == Decision(Blank, if error.value.data.value.code == "UNAUTHORIZED" then Some("/sign-in") else None)
    ensures !isLoading && !(error.Some? && error.value.data.Some?) && data.Some? && data.value.success ==>
      d == Decision(Blank, Some(RedirectTarget(origin)))
    ensures !isLoading && !(error.Some? && error.value.data.Some?) && !(data.Some? && data.value.success) ==>
      d == Decision(Fallback, None)
  {
    if isLoading then Decision(Spinner, None)
    else if error.Some? && error.value.data.Some? then
      Decision(Blank, if error.value.data.value.code == "UNAUTHORIZED" then Some("/sign-in") else None)
    else if data.Some? && data.value.success then Decision(Blank, Some(RedirectTarget(origin)))
    else Decision(Fallback, None)
  }

  /** The page navigates exactly when loading is over and either the error carries data
      with code UNAUTHORIZED (to the sign-in page) or there is no such error and the data
      reports success (to the origin or the dashboard); it never both navigates and shows
      something. */
  lemma DecideNavigation(isLoading: bool, error: Option<QueryError>, data: Option<AuthData>, origin: Option<string>)
    ensures var d := Decide(isLoading, error, data, origin);
      var errorWithData := error.Some? && error.value.data.Some?;
      && (d.navigateTo.Some? <==>
            && !isLoading
            && (if errorWithData then error.value.data.value.code == "UNAUTHORIZED"
                else data.Some? && data.value.success))
      && (d.navigateTo.Some? ==> d.screen == Blank)
      && (d.navigateTo.Some? && errorWithData ==> d.navigateTo.value == "/sign-in")
      && (d.navigateTo.Some? && !errorWithData ==> d.navigateTo.value == RedirectTarget(origin))
  {
  }
}
