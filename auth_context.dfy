/** `AuthProvider` of `context/AuthContext.jsx`: the React state that mirrors
    the session store (`currentUser`, `token`, `loading`) and the context's
    `login`, `logout` and mount-time `checkAuth`. */
module AuthContext {
  import opened Js
  import opened Http
  import opened Session

  /** The `currentUser` object. */
  datatype User = User(typeId: Option<Value>, userType: Option<string>)

  /** `localStorage.getItem("token") || null` as the initial `token` state. */
  function InitialToken(stored: Option<string>): (t: Option<Value>)
    ensures t.Some? <==> stored.Some? && stored.value != ""
    ensures t.Some? ==> t.value == Str(stored.value)
  {
    if stored.Some? && stored.value != "" then Some(Str(stored.value)) else None
  }

  /** The user `checkAuth` restores from the store: present only when a
      non-empty token is stored; `typeId` goes through `parseInt` when it
      is non-empty, and an empty `userType` reads as `null`. */
  function RestoredUser(items: map<string, string>): (u: Option<User>)
    ensures u.Some? <==> "token" in items && items["token"] != ""
    ensures u.Some? ==>
              (u.value.typeId == if "typeId" in items && items["typeId"] != "" then Some(Num(ParseInt(items["typeId"]))) else None)
    ensures u.Some? ==>
              (u.value.userType == if "userType" in items && items["userType"] != "" then Some(items["userType"]) else None)
  {
    if "token" in items && items["token"] != "" then
      Some(User(
        if "typeId" in items && items["typeId"] != "" then Some(Num(ParseInt(items["typeId"]))) else None,
        if "userType" in items && items["userType"] != "" then Some(items["userType"]) else None))
    else None
  }

  /** The store after the context's `login`: `authService.login` runs first;
      once it resolves, `userType` and `String(response.accessToken)` are
      written again, whether or not a token came back. */
  function StoreAfterContextLogin(items: map<string, string>, answer: Outcome<LoginBody>, userType: string): (r: map<string, string>)
    ensures LoginReply(answer).Rejected? ==> r == StoreAfterLoginAnswer(items, answer, userType)
    ensures LoginReply(answer).Resolved? ==>
              && r.Keys == StoreAfterLoginAnswer(items, answer, userType).Keys + {"userType", "token"}
              && r["userType"] == userType
              && r["token"] == StorageText(LoginReply(answer).value.accessToken)
              && forall k :: k in r && k != "userType" && k != "token" ==> r[k] == StoreAfterLoginAnswer(items, answer, userType)[k]
  {
    var s := StoreAfterLoginAnswer(items, answer, userType);
    match LoginReply(answer)
    case Resolved(d) => s["userType" := userType]["token" := StorageText(d.accessToken)]
    case Rejected(_) => s
  }

  class Provider {
    const store: LocalStorage
    var currentUser: Option<User>
    var loading: bool
    var token: Option<Value>

    /** The provider's first render, before any effect has run. */
    constructor (store: LocalStorage)
      ensures this.store == store
      ensures currentUser == None && loading
      ensures token == InitialToken(store.GetItem("token"))
    {
      this.store := store;
      currentUser := None;
      loading := true;
      token := InitialToken(store.GetItem("token"));
    }

    /** `isAuthenticated: !!token` */
    predicate IsAuthenticated()
      reads this
    {
      token.Some? && Truthy(token.value)
    }

    /** `{!loading && children}` */
    predicate RendersChildren()
      reads this
    {
      !loading
    }

    /** `checkAuth`, run once on mount. */
    method CheckAuth()
      modifies this
      ensures !loading
      ensures RestoredUser(store.items).Some? ==>
                currentUser == RestoredUser(store.items) && token == Some(Str(store.items["token"]))
      ensures RestoredUser(store.items).None? ==> currentUser == old(currentUser) && token == old(token)
    {
      var stored := store.GetItem("token");
      if stored.Some? && stored.value != "" {
        token := Some(Str(stored.value));
        currentUser := RestoredUser(store.items);
      }
      loading := false;
    }

    /** The context's `login(username, password, userType)`. A rejected
      `authService.login` is rethrown and leaves the React state as it was. */
    method Login(username: string, password: string, userType: string, answer: Outcome<LoginBody>)
      returns (c: Call<LoginData>)
      modifies this, store
      ensures c == Call([PostLogin(username, password, userType)], LoginReply(answer))
      ensures store.items == StoreAfterContextLogin(old(store.items), answer, userType)
      ensures c.reply.Resolved? ==>
                currentUser == Some(User(c.reply.value.typeId, Some(userType))) && token == c.reply.value.accessToken
      ensures c.reply.Rejected? ==> currentUser == old(currentUser) && token == old(token)
      ensures loading == old(loading)
    {
      c := Session.Login(store, username, password, userType, answer);
      if c.reply.Resolved? {
        var d := c.reply.value;
        store.SetItem("userType", userType);
        store.SetItem("token", StorageText(d.accessToken));
        currentUser := Some(User(d.typeId, Some(userType)));
        token := d.accessToken;
      }
    }

    /** The context's `logout()`. */
    method Logout()
      modifies this, store
      ensures store.items == Cleared(old(store.items))
      ensures currentUser == None && token == None && !IsAuthenticated()
      ensures loading == old(loading)
    {
      Session.Logout(store);
      currentUser := None;
      token := None;
      store.RemoveItem("userType");
      store.RemoveItem("token");
    }
  }

  /** Reloading the page after a successful login restores the same user:
      for a non-empty access token, a natural-number `typeId` and a
      non-empty role, `checkAuth` reads back the `typeId` and role that
      `login` put into `currentUser`. */
  lemma ReloadRestoresUser(items: map<string, string>, d: LoginData, userType: string, typeId: nat)
    requires d.accessToken.Some? && d.accessToken.value.Str? && d.accessToken.value.s != ""
    requires d.typeId == Some(Num(Int(typeId))) && userType != ""
    ensures RestoredUser(StoreAfterContextLogin(items, Ok(LoginBody(Some(d))), userType))
            == Some(User(d.typeId, Some(userType)))
  {
    var r := StoreAfterContextLogin(items, Ok(LoginBody(Some(d))), userType);
    assert StorageText(d.typeId) == NatToString(typeId);
    assert r["typeId"] == StoreAfterLogin(items, d, userType)["typeId"];
    ParseIntOfNatText(typeId);
  }
}
