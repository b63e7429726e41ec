/** The front end's route guard: the stored token and user decide whether a
    page renders or where the browser is sent instead. `JSON.parse` is a
    parameter; it returns nothing when it throws. */
module AppGuard {
  import opened Common

  /** A parsed JSON value as the guard reads it: a falsy value (null, false,
      0, ""), or a truthy value whose `role` member may be missing (a
      non-object reads every member as missing). */
  datatype JsonDoc = FalsyDoc | TruthyDoc(role: Option<string>)

  /** What `localStorage.getItem` returns for a key: nothing, or the text. */
  type Stored = Option<string>

  /** `JSON.parse` as the guard relies on it: the text "null" parses to null. */
  ghost predicate ParsesNull(parse: string -> Option<JsonDoc>) {
    parse("null") == Some(FalsyDoc)
  }

  /** `getUser`: parse the stored text, or "null" when there is none; a parse
      that throws gives null. */
  function GetUser(stored: Stored, parse: string -> Option<JsonDoc>): (u: JsonDoc)
    requires ParsesNull(parse)
    ensures !Truthy(stored) ==> u == FalsyDoc
    ensures Truthy(stored) && parse(stored.value).None? ==> u == FalsyDoc
    ensures Truthy(stored) && parse(stored.value).Some? ==> u == parse(stored.value).value
  {
    match parse(OrElse(stored, "null"))
    case None => FalsyDoc
    case Some(d) => d
  }

  /** What `RequireRole` returns: the page, or a redirect. */
  datatype Outcome = Render | Redirect(to: string)

  /** Where a signed-in user with the wrong role is sent. */
  function HomeOf(role: string): (path: string)
    ensures role == "admin" ==> path == "/dashboard"
    ensures role == "staff" ==> path == "/staff"
    ensures role != "admin" && role != "staff" ==> path == "/customer"
  {
    if role == "admin" then "/dashboard" else if role == "staff" then "/staff" else "/customer"
  }

  /** `RequireRole`: no token, then no user or no role, send the browser to
      the login page; a different role goes to its own home; only the
      required role renders. */
  function RequireRole(token: Stored, stored: Stored, parse: string -> Option<JsonDoc>, role: string): (o: Outcome)
    requires ParsesNull(parse)
    ensures !Truthy(token) ==> o == Redirect("/")
    ensures Truthy(token) && !HasRole(GetUser(stored, parse)) ==> o == Redirect("/")
    ensures o == Render <==> Truthy(token) && GetUser(stored, parse) == TruthyDoc(Some(role)) && role != ""
    ensures Truthy(token) && HasRole(GetUser(stored, parse)) && GetUser(stored, parse).role.value != role ==>
              o == Redirect(HomeOf(GetUser(stored, parse).role.value))
  {
    var user := GetUser(stored, parse);
    if !Truthy(token) then Redirect("/")
    else if !HasRole(user) then Redirect("/")
    else if user.role.value != role then Redirect(HomeOf(user.role.value))
    else Render
  }

  /** `!user || !user.role` fails. */
  predicate HasRole(u: JsonDoc) {
    u.TruthyDoc? && Truthy(u.role)
  }

  /** The role each guarded home page requires. */
  function RouteRole(path: string): Option<string> {
    if path == "/dashboard" then Some("admin")
    else if path == "/staff" then Some("staff")
    else if path == "/customer" then Some("customer")
    else None
  }

  /** Malformed stored text sends the browser to the login page. */
  lemma MalformedUserLogsOut(token: Stored, stored: Stored, parse: string -> Option<JsonDoc>, role: string)
    requires ParsesNull(parse) && Truthy(stored) && parse(stored.value).None?
    ensures RequireRole(token, stored, parse, role) == Redirect("/")
  {
  }

  /** A user of one of the three roles who lands on another role's page is
      sent to a page that renders for them. */
  lemma RedirectReachesHome(token: Stored, stored: Stored, parse: string -> Option<JsonDoc>, role: string)
    requires ParsesNull(parse) && Truthy(token)
    requires GetUser(stored, parse).TruthyDoc? && GetUser(stored, parse).role.Some?
    requires GetUser(stored, parse).role.value in {"admin", "staff", "customer"}
    requires RequireRole(token, stored, parse, role).Redirect?
    ensures var home := RequireRole(token, stored, parse, role).to;
            RouteRole(home).Some? && RequireRole(token, stored, parse, RouteRole(home).value) == Render
  {
  }

  /** Any other role is sent to /customer, whose guard sends it there
      again: no page renders for it. */
  lemma UnknownRoleLoops(token: Stored, stored: Stored, parse: string -> Option<JsonDoc>, role: string)
    requires ParsesNull(parse) && Truthy(token)
    requires HasRole(GetUser(stored, parse))
    requires GetUser(stored, parse).role.value !in {"admin", "staff", "customer"}
    requires role in {"admin", "staff", "customer"}
    ensures RequireRole(token, stored, parse, role) == Redirect("/customer")
    ensures RequireRole(token, stored, parse, RouteRole("/customer").value) == Redirect("/customer")
  {
  }
}
