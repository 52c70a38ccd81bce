/** The single-key token store of src/lib/auth.ts: `localStorage` holds the
    bearer token under the key "token"; login writes it, logout removes it and
    the authentication check tests it for truthiness. */
module AuthLib {
  import opened Types

  const TokenKey := "token"

  /** The `token` field of a login reply body: a string, absent (`undefined`)
      or `null`. */
  datatype TokenField = TokenText(text: string) | TokenUndefined | TokenNull

  /** `response.data` of a login reply: a body carrying a token field, or a
      nullish body on which reading `.token` throws. */
  datatype LoginData = LoginBody(token: TokenField) | NullishBody

  /** The error a property read on a nullish body throws. */
  const NullishTokenRead := "TypeError: Cannot read properties of null or undefined (reading 'token')"

  /** What `localStorage.setItem` stores: the value converted to a string, so
      only an empty token string gives falsy stored text. */
  function StoredText(value: TokenField): (r: string)
    ensures r == "" <==> value == TokenText("")
    ensures value.TokenText? ==> r == value.text
  {
    match value
    case TokenText(text) => text
    case TokenUndefined => "undefined"
    case TokenNull => "null"
  }

  /** `localStorage.getItem(key)`: `None` (null) for a missing key. */
  function GetItem(storage: map<string, string>, key: string): (r: Option<string>)
    ensures r.Some? <==> key in storage
    ensures r.Some? ==> r.value == storage[key]
  {
    if key in storage then Some(storage[key]) else None
  }

  /** `!!localStorage.getItem("token")` */
  predicate Authenticated(storage: map<string, string>)
    ensures Authenticated(storage) <==> TokenKey in storage && storage[TokenKey] != ""
  {
    Truthy(GetItem(storage, TokenKey))
  }

  /** `localStorage.setItem("token", value)` */
  function WithToken(storage: map<string, string>, value: string): (r: map<string, string>)
    ensures TokenKey in r && r[TokenKey] == value
    ensures Authenticated(r) <==> value != ""
    ensures forall k :: k != TokenKey ==> (k in r <==> k in storage)
    ensures forall k :: k != TokenKey && k in r ==> r[k] == storage[k]
  {
    storage[TokenKey := value]
  }

  /** `localStorage.removeItem("token")`; removing an absent key is no error. */
  function WithoutToken(storage: map<string, string>): (r: map<string, string>)
    ensures TokenKey !in r && !Authenticated(r)
    ensures forall k :: k != TokenKey ==> (k in r <==> k in storage)
    ensures forall k :: k != TokenKey && k in r ==> r[k] == storage[k]
  {
    storage - {TokenKey}
  }

  /** Logging out twice leaves the same storage as logging out once. */
  lemma LogoutIdempotent(storage: map<string, string>)
    ensures WithoutToken(WithoutToken(storage)) == WithoutToken(storage)
  {
  }

  /** Logging in and then out leaves every other key as it was and no token. */
  lemma LoginThenLogout(storage: map<string, string>, value: string)
    ensures WithoutToken(WithToken(storage, value)) == WithoutToken(storage)
  {
  }

  /** The browser storage the auth helpers work on. */
  class TokenStore {
    var localStorage: map<string, string>

    constructor (initial: map<string, string>)
      ensures localStorage == initial
    {
      localStorage := initial;
    }

    /** `register`: posts the credentials and returns the reply body; no
        storage effect, and a rejected request propagates. */
    method Register<D>(username: string, password: string, reply: Settled<D>) returns (r: Settled<D>)
      ensures r == reply
    {
      r := reply;
    }

    /** `login`: the awaited POST comes first, so a rejected request leaves the
        storage as it was; a fulfilled one stores the token text it carries,
        unless the body is nullish, when reading `.token` throws before
        `setItem`. The remember flag (named `registerMe` in the source) is never
        read. */
    method Login(username: string, password: string, rememberMe: bool, reply: Settled<LoginData>)
      returns (r: Settled<()>)
      modifies this
      ensures reply.Fulfilled? && reply.value.LoginBody? ==>
        r == Fulfilled(()) && localStorage == WithToken(old(localStorage), StoredText(reply.value.token))
      ensures reply.Fulfilled? && reply.value.NullishBody? ==>
        r == Rejected(NullishTokenRead) && localStorage == old(localStorage)
      ensures reply.Rejected? ==>
        r == Rejected(reply.reason) && localStorage == old(localStorage)
    {
      match reply
      case Rejected(reason) =>
        r := Rejected(reason);
      case Fulfilled(data) =>
        match data {
          case NullishBody =>
            r := Rejected(NullishTokenRead);
          case LoginBody(token) =>
            localStorage := localStorage[TokenKey := StoredText(token)];
            r := Fulfilled(());
        }
    }

    /** `logout`: removes the token key and never fails. */
    method Logout()
      modifies this
      ensures localStorage == WithoutToken(old(localStorage))
    {
      localStorage := localStorage - {TokenKey};
    }

    /** `isAuthenticated`: reads the storage and changes nothing. */
    method IsAuthenticated() returns (b: bool)
      ensures b <==> Authenticated(localStorage)
    {
      var item := if TokenKey in localStorage then Some(localStorage[TokenKey]) else None;
      b := item.Some? && item.value != "";
    }
  }

  /** Logging in with a reply whose token is missing or null still
      authenticates: the stored text "undefined" or "null" is truthy. Only an
      empty token string does not. */
  lemma NullishTokenAuthenticates(storage: map<string, string>, token: TokenField)
    ensures Authenticated(WithToken(storage, StoredText(token))) <==> token != TokenText("")
    ensures Authenticated(WithToken(storage, StoredText(TokenUndefined)))
    ensures Authenticated(WithToken(storage, StoredText(TokenNull)))
  {
  }

  /** Two stores holding the same storage end alike after the same login reply,
      one with the remember flag set and one without. */
  method RememberFlagIgnored(a: TokenStore, b: TokenStore, username: string, password: string,
                             reply: Settled<LoginData>)
    returns (ra: Settled<()>, rb: Settled<()>)
    requires a != b && a.localStorage == b.localStorage
    modifies a, b
    ensures ra == rb && a.localStorage == b.localStorage
  {
    ra := a.Login(username, password, true, reply);
    rb := b.Login(username, password, false, reply);
  }

  /** After logout, then logout again, the check reports false both times. */
  method LogoutTwice(store: TokenStore) returns (first: bool, second: bool)
    modifies store
    ensures !first && !second
    ensures store.localStorage == WithoutToken(old(store.localStorage))
  {
    store.Logout();
    first := store.IsAuthenticated();
    store.Logout();
    second := store.IsAuthenticated();
  }
}
