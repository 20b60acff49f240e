/**
 * The browser side of signing in: the token kept in local storage and the
 * `AuthState` that mirrors it.
 */
module ClientAuth {
  import opened Wrappers

  /** The local-storage key of the bearer token, written by `login` and read by `get_token`. */
  const AUTH_TOKEN_KEY: string := "auth_token"

  /** The browser's local storage: string values by key. */
  class LocalStorage {
    var items: map<string, string>

    constructor (items: map<string, string>)
      ensures this.items == items
    {
      this.items := items;
    }
  }

  /** `get_token`: the stored token, if there is one. */
  function GetToken(items: map<string, string>): (t: Option<string>)
    ensures t.Some? <==> AUTH_TOKEN_KEY in items
    ensures t.Some? ==> t.value == items[AUTH_TOKEN_KEY]
  {
    if AUTH_TOKEN_KEY in items then Some(items[AUTH_TOKEN_KEY]) else None
  }

  /** The client's view of whether it is signed in. */
  class AuthState {
    var token: Option<string>
    var isAuthenticated: bool
    var userId: Option<string>

    /** Signed in exactly when a token is held. */
    ghost predicate Valid()
      reads this
    {
      isAuthenticated <==> token.Some?
    }

    /** The state agrees with what is in storage. */
    ghost predicate InSync(storage: LocalStorage)
      reads this, storage
    {
      token == GetToken(storage.items)
    }

    /** `AuthState::new`: signed in iff a token is stored; the user id is not known yet. */
    constructor (storage: LocalStorage)
      ensures Valid() && InSync(storage)
      ensures token == GetToken(storage.items) && isAuthenticated == (AUTH_TOKEN_KEY in storage.items)
      ensures userId == None
    {
      token := GetToken(storage.items);
      isAuthenticated := AUTH_TOKEN_KEY in storage.items;
      userId := None;
    }

    /** `login`: hold the token, mark signed in, and save the token under `AUTH_TOKEN_KEY`. */
    method Login(t: string, storage: LocalStorage)
      modifies this`token, this`isAuthenticated, storage
      ensures Valid() && InSync(storage)
      ensures token == Some(t) && isAuthenticated && userId == old(userId)
      ensures storage.items == old(storage.items)[AUTH_TOKEN_KEY := t]
    {
      token := Some(t);
      isAuthenticated := true;
      storage.items := storage.items[AUTH_TOKEN_KEY := t];
    }

    /** `logout`: drop the token and the user id, mark signed out, and delete the stored token. */
    method Logout(storage: LocalStorage)
      modifies this, storage
      ensures Valid() && InSync(storage)
      ensures token == None && !isAuthenticated && userId == None
      ensures storage.items == old(storage.items) - {AUTH_TOKEN_KEY}
    {
      token := None;
      isAuthenticated := false;
      userId := None;
      storage.items := storage.items - {AUTH_TOKEN_KEY};
    }
  }

  /** Signing out twice leaves things exactly as signing out once does. */
  method LogoutTwice(auth: AuthState, storage: LocalStorage)
    modifies auth, storage
    ensures auth.Valid() && auth.InSync(storage)
    ensures auth.token == None && !auth.isAuthenticated && auth.userId == None
    ensures storage.items == old(storage.items) - {AUTH_TOKEN_KEY}
  {
    auth.Logout(storage);
    auth.Logout(storage);
  }
}
