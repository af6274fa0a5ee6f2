/** The session of src/context/AuthContext.tsx over a key-value store. The
    store is AsyncStorage; `installedToken` is what `setAuthToken` installed
    for the HTTP client. A user is kept as its JSON text. */
module AuthContext {
  import opened Wrappers
  import opened Text

  const TokenKey: string := "@token"
  const UserKey: string := "@user"

  /** The token installed and the user exposed by the context. */
  datatype Session = Session(token: Option<string>, user: Option<string>)

  /** `getItem(key)` followed by JavaScript truthiness: present and not "". */
  predicate HasValue(store: map<string, string>, key: string) {
    key in store && store[key] != ""
  }

  /** The session `loadStorage` restores when the stored user parses: both
      keys must hold a value; the token is installed trimmed. */
  function Restored(store: map<string, string>): (s: Session)
    ensures s.user.Some? <==> HasValue(store, TokenKey) && HasValue(store, UserKey)
    ensures s.user.Some? ==> s.token == Some(Trim(store[TokenKey])) && s.user == Some(store[UserKey])
    ensures s.user.None? ==> s.token == None
  {
    if HasValue(store, TokenKey) && HasValue(store, UserKey)
    then Session(Some(Trim(store[TokenKey])), Some(store[UserKey]))
    else Session(None, None)
  }

  /** The store after a sign-in with the server's token (missing becomes "") and user. */
  function SignedInStore(store: map<string, string>, token: Option<string>, user: string): map<string, string> {
    store[TokenKey := Trim(token.GetOr(""))][UserKey := user]
  }

  /** A sign-in is restored on the next start exactly when its trimmed token
      and its user are not empty; then the same token and user come back. */
  lemma SignInRestores(store: map<string, string>, token: Option<string>, user: string)
    ensures var s := Restored(SignedInStore(store, token, user));
      s.user.Some? <==> Trim(token.GetOr("")) != "" && user != ""
    ensures var s := Restored(SignedInStore(store, token, user));
      s.user.Some? ==> s == Session(Some(Trim(token.GetOr(""))), Some(user))
  {
    SignedInStoreHolds(store, token, user);
    TrimIdempotent(token.GetOr(""));
  }

  lemma SignedInStoreHolds(store: map<string, string>, token: Option<string>, user: string)
    ensures var st := SignedInStore(store, token, user);
      TokenKey in st && UserKey in st && st[TokenKey] == Trim(token.GetOr("")) && st[UserKey] == user
  {
    assert TokenKey[1] != UserKey[1];
  }

  /** A signed-out store restores no session. */
  lemma SignOutNotRestored(store: map<string, string>)
    ensures Restored(store - {TokenKey, UserKey}) == Session(None, None)
  {
    assert TokenKey !in store - {TokenKey, UserKey};
  }

  /** What the server answers to `POST /auth/login`. */
  datatype LoginResponse = LoginResponse(token: Option<string>, user: string)

  class AuthProvider {
    var store: map<string, string>
    var installedToken: Option<string>
    var user: Option<string>
    var loading: bool

    constructor (stored: map<string, string>, installed: Option<string>)
      ensures store == stored && installedToken == installed && user == None && loading
    {
      store := stored;
      installedToken := installed;
      user := None;
      loading := true;
    }

    /** `loadStorage`. When both keys hold a value the trimmed token is
        installed and the user parsed; if parsing throws, the token stays
        installed and the user is not set. Otherwise the token is cleared and
        the user set to null. `loading` ends false on every path. */
    method LoadStorage(userParses: bool)
      modifies this
      ensures !loading && store == old(store)
      ensures HasValue(store, TokenKey) && HasValue(store, UserKey) ==>
        installedToken == Restored(store).token
        && user == (if userParses then Restored(store).user else old(user))
      ensures !(HasValue(store, TokenKey) && HasValue(store, UserKey)) ==>
        installedToken == None && user == None
    {
      var token := if TokenKey in store then Some(store[TokenKey]) else None;
      var storedUser := if UserKey in store then Some(store[UserKey]) else None;
      if token.Some? && token.value != "" && storedUser.Some? && storedUser.value != "" {
        var cleanToken := Trim(token.value);
        installedToken := Some(cleanToken);
        if userParses {
          user := Some(storedUser.value);
        }
      } else {
        installedToken := None;
        user := None;
      }
      loading := false;
    }

    /** `signIn`: a failed login request changes nothing; otherwise the
        trimmed token and the user are stored, the same token installed and
        the user set. */
    method SignIn(response: Result<LoginResponse>)
      modifies this
      ensures response.Err? ==>
        store == old(store) && installedToken == old(installedToken) && user == old(user)
      ensures response.Ok? ==>
        var clean := Trim(response.value.token.GetOr(""));
        && store == SignedInStore(old(store), response.value.token, response.value.user)
        && installedToken == Some(clean)
        && user == Some(response.value.user)
      ensures loading == old(loading)
    {
      if response.Err? {
        return;
      }
      var cleanToken := Trim(response.value.token.GetOr(""));
      store := store[TokenKey := cleanToken];
      store := store[UserKey := response.value.user];
      installedToken := Some(cleanToken);
      user := Some(response.value.user);
    }

    /** `signOut`: both keys removed, no token installed, no user. */
    method SignOut()
      modifies this
      ensures store == old(store) - {TokenKey, UserKey}
      ensures installedToken == None && user == None
      ensures loading == old(loading)
    {
      store := store - {TokenKey, UserKey};
      installedToken := None;
      user := None;
    }
  }
}
