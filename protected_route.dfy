/** `ProtectedRoute`: the route guard, which reads the stored token and role
    on every render and picks one of three outcomes. */
module ProtectedRoute {
  import opened Js
  import opened Http
  import opened Session
  import opened AuthContext

  datatype Decision = ToLogin | ToHome | ShowOutlet

  /** The guard for a route that may require a role (`userType` prop). A
      token counts as present whenever the key exists, whatever its text. */
  function Guard(items: map<string, string>, required: Option<string>): (d: Decision)
    ensures d == ToLogin <==> "token" !in items
    ensures d == ToHome <==>
              "token" in items && required.Some? && required.value != "" && Lookup(items, "userType") != Some(required.value)
    ensures d == ShowOutlet <==>
              "token" in items && (required.None? || required.value == "" || Lookup(items, "userType") == Some(required.value))
  {
    if "token" !in items then ToLogin
    else if required.Some? && required.value != "" && Lookup(items, "userType") != Some(required.value) then ToHome
    else ShowOutlet
  }

  /** Without a role requirement any stored token passes. */
  lemma AnyTokenPassesOpenRoute(items: map<string, string>)
    requires "token" in items
    ensures Guard(items, None) == ShowOutlet && Guard(items, Some("")) == ShowOutlet
  {
  }

  /** After a logout or a 401 every protected route redirects to the login
      page. */
  lemma ClearedSessionGoesToLogin(items: map<string, string>, required: Option<string>)
    ensures Guard(Cleared(items), required) == ToLogin
  {
    assert "token" in SessionKeys;
  }

  /** After a successful context login as `userType`, the routes for that
      role open and a route for another role redirects home. */
  lemma LoginOpensOwnRole(items: map<string, string>, answer: Outcome<LoginBody>, userType: string, other: string)
    requires LoginReply(answer).Resolved? && userType != "" && other != "" && other != userType
    ensures Guard(StoreAfterContextLogin(items, answer, userType), Some(userType)) == ShowOutlet
    ensures Guard(StoreAfterContextLogin(items, answer, userType), Some(other)) == ToHome
  {
  }

  /** A login response without an access token still lets the user through:
      the context stores the text "undefined" as the token, which the guard
      accepts, while `isAuthenticated` is false because the React token is
      `undefined`. */
  lemma MissingTokenStillAdmitted(items: map<string, string>, d: LoginData, userType: string)
    requires d.accessToken.None?
    ensures var r := StoreAfterContextLogin(items, Ok(LoginBody(Some(d))), userType);
            r["token"] == "undefined" && Guard(r, None) == ShowOutlet && Guard(r, Some(userType)) == ShowOutlet
  {
  }
}
