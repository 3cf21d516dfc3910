/** The session key store: the four `localStorage` keys that `authService`
    writes on login and removes on logout, that the response interceptor
    removes on every 401, and that the request interceptor reads to attach
    the bearer token. */
module Session {
  import opened Js
  import opened Http

  /** The keys that make up a session. */
  const SessionKeys: set<string> := {"token", "refreshToken", "typeId", "userType"}

  /** `window.localStorage`: a mutable map from keys to strings. */
  class LocalStorage {
    var items: map<string, string>

    constructor (initial: map<string, string>)
      ensures items == initial
    {
      items := initial;
    }

    /** `getItem(k)`, with `null` as `None` */
    function GetItem(k: string): (r: Option<string>)
      reads this
      ensures r.Some? <==> k in items
      ensures r.Some? ==> r.value == items[k]
    {
      if k in items then Some(items[k]) else None
    }

    /** `setItem(k, v)` */
    method SetItem(k: string, v: string)
      modifies this
      ensures items == old(items)[k := v]
    {
      items := items[k := v];
    }

    /** `removeItem(k)` */
    method RemoveItem(k: string)
      modifies this
      ensures items == old(items) - {k}
    {
      items := items - {k};
    }
  }

  /** The store once every session key is gone. */
  function Cleared(items: map<string, string>): (r: map<string, string>)
    ensures forall k :: k in r <==> k in items && k !in SessionKeys
    ensures forall k :: k in r ==> r[k] == items[k]
  {
    items - SessionKeys
  }

  /** Removes the four session keys one by one, as `authService.logout`
      and the 401 branch of the response interceptor both do. */
  method ClearSession(store: LocalStorage)
    modifies store
    ensures store.items == Cleared(old(store.items))
  {
    store.RemoveItem("token");
    store.RemoveItem("refreshToken");
    store.RemoveItem("typeId");
    store.RemoveItem("userType");
  }

  /** `authService.logout()` */
  method Logout(store: LocalStorage)
    modifies store
    ensures store.items == Cleared(old(store.items))
  {
    ClearSession(store);
  }

  /** The error branch of the response interceptor, as it affects the
      store: a 401 clears the session; 403, 404, other statuses and
      missing responses leave the store alone. */
  method InterceptResponse<T>(store: LocalStorage, o: Outcome<T>)
    modifies store
    ensures HasStatus(o, 401) ==> store.items == Cleared(old(store.items))
    ensures !HasStatus(o, 401) ==> store.items == old(store.items)
  {
    if o.Err? && o.status == 401 {
      ClearSession(store);
    }
  }

  /** The request interceptor: the `Authorization` header it sets, if any. */
  function AuthorizationHeader(stored: Option<string>): (h: Option<string>)
    ensures h.Some? <==> stored.Some? && stored.value != ""
    ensures h.Some? ==> h.value == "Bearer " + stored.value
  {
    if stored.Some? && stored.value != "" then Some("Bearer " + stored.value) else None
  }

  /** `getItem(k)` on a snapshot of the store. */
  function Lookup(items: map<string, string>, k: string): (r: Option<string>)
    ensures r.Some? <==> k in items
    ensures r.Some? ==> r.value == items[k]
  {
    if k in items then Some(items[k]) else None
  }

  /** After a logout or a 401 no request carries a bearer token. */
  lemma NoHeaderAfterClear(items: map<string, string>)
    ensures AuthorizationHeader(Lookup(Cleared(items), "token")).None?
  {
    assert "token" in SessionKeys;
  }

  // ---------------------------------------------------------------------
  // Login

  /** The `data` of a login response. */
  datatype LoginData = LoginData(accessToken: Option<Value>, refreshToken: Option<Value>, typeId: Option<Value>)

  /** The body of a login response. */
  datatype LoginBody = LoginBody(data: Option<LoginData>)

  /** What `setItem` stores for a value that may be `undefined`: `String(v)`. */
  function StorageText(v: Option<Value>): (s: string)
    ensures v.None? ==> s == "undefined"
    ensures v.Some? ==> s == ToText(v.value)
  {
    if v.Some? then ToText(v.value) else "undefined"
  }

  predicate HasAccessToken(d: LoginData) {
    d.accessToken.Some? && Truthy(d.accessToken.value)
  }

  /** The store after `authService.login` has read the response data: the
      four session keys are written only when an access token came back. */
  function StoreAfterLogin(items: map<string, string>, d: LoginData, userType: string): (r: map<string, string>)
    ensures !HasAccessToken(d) ==> r == items
    ensures HasAccessToken(d) ==> r.Keys == items.Keys + SessionKeys
    ensures HasAccessToken(d) ==>
              && r["token"] == ToText(d.accessToken.value)
              && r["refreshToken"] == StorageText(d.refreshToken)
              && r["typeId"] == StorageText(d.typeId)
              && r["userType"] == userType
    ensures forall k :: k in items && k !in SessionKeys ==> k in r && r[k] == items[k]
  {
    if HasAccessToken(d) then
      items["token" := ToText(d.accessToken.value)]["refreshToken" := StorageText(d.refreshToken)]
           ["typeId" := StorageText(d.typeId)]["userType" := userType]
    else items
  }

  /** How the `authService.login` promise settles for a given answer. */
  function LoginReply(answer: Outcome<LoginBody>): (r: Reply<LoginData>)
    ensures r.Resolved? <==> answer.Ok? && answer.body.data.Some?
    ensures r.Resolved? ==> r.value == answer.body.data.value
    ensures answer.Ok? && answer.body.data.None? ==> r == Rejected(TypeFailure)
    ensures !answer.Ok? ==> r == Rejected(Settle(answer).failure)
  {
    match answer
    case Ok(b) => if b.data.Some? then Resolved(b.data.value) else Rejected(TypeFailure)
    case Err(s, d) => Rejected(HttpFailure(s, d))
    case NoResponse => Rejected(NetworkFailure)
  }

  /** The store after `authService.login` for a given answer: a 401 clears
      the session, a body with data writes it, anything else changes
      nothing. */
  function StoreAfterLoginAnswer(items: map<string, string>, answer: Outcome<LoginBody>, userType: string): (r: map<string, string>)
    ensures HasStatus(answer, 401) ==> r == Cleared(items)
    ensures LoginReply(answer).Resolved? ==> r == StoreAfterLogin(items, LoginReply(answer).value, userType)
    ensures !HasStatus(answer, 401) && LoginReply(answer).Rejected? ==> r == items
  {
    if HasStatus(answer, 401) then Cleared(items)
    else if answer.Ok? && answer.body.data.Some? then StoreAfterLogin(items, answer.body.data.value, userType)
    else items
  }

  /** `authService.login(username, password, userType)` */
  method Login(store: LocalStorage, username: string, password: string, userType: string, answer: Outcome<LoginBody>)
    returns (c: Call<LoginData>)
    modifies store
    ensures c == Call([PostLogin(username, password, userType)], LoginReply(answer))
    ensures store.items == StoreAfterLoginAnswer(old(store.items), answer, userType)
  {
    InterceptResponse(store, answer);
    c := Call([PostLogin(username, password, userType)], LoginReply(answer));
    if answer.Ok? && answer.body.data.Some? {
      var d := answer.body.data.value;
      if HasAccessToken(d) {
        store.SetItem("token", ToText(d.accessToken.value));
        store.SetItem("refreshToken", StorageText(d.refreshToken));
        store.SetItem("typeId", StorageText(d.typeId));
        store.SetItem("userType", userType);
      }
    }
  }

  /** Logging out after a login leaves exactly the keys that were there
      before the login, minus the session: login writes nothing else. */
  lemma LogoutUndoesLogin(items: map<string, string>, d: LoginData, userType: string)
    ensures Cleared(StoreAfterLogin(items, d, userType)) == Cleared(items)
  {
    var a := Cleared(StoreAfterLogin(items, d, userType));
    var b := Cleared(items);
    assert forall k :: k in a <==> k in b;
    assert forall k :: k in a ==> a[k] == b[k];
  }

  /** A successful login makes every later request carry the stored token. */
  lemma LoginAttachesBearer(items: map<string, string>, d: LoginData, userType: string)
    requires HasAccessToken(d) && ToText(d.accessToken.value) != ""
    ensures AuthorizationHeader(Lookup(StoreAfterLogin(items, d, userType), "token"))
            == Some("Bearer " + ToText(d.accessToken.value))
  {
  }
}
