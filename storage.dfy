/** The two `localStorage` keys the client uses, `accessToken` and
    `refreshToken`. `getItem` gives null (None) for a key never set or removed. */
module Storage {
  import opened Wrappers

  datatype Key = AccessToken | RefreshToken

  /** A snapshot of both keys */
  datatype Tokens = Tokens(access: Option<string>, refresh: Option<string>)

  const NoTokens := Tokens(None, None)

  /** `!!localStorage.getItem(key)`: present and not the empty string */
  predicate IsSet(item: Option<string>) {
    item.Some? && item.value != ""
  }

  class LocalStorage {
    var accessToken: Option<string>
    var refreshToken: Option<string>

    constructor ()
      ensures Snapshot() == NoTokens
    {
      accessToken, refreshToken := None, None;
    }

    function Snapshot(): Tokens
      reads this
    {
      Tokens(accessToken, refreshToken)
    }

    /** `localStorage.getItem(key)` */
    function GetItem(key: Key): (r: Option<string>)
      reads this
      ensures r == if key == AccessToken then Snapshot().access else Snapshot().refresh
    {
      match key
      case AccessToken => accessToken
      case RefreshToken => refreshToken
    }

    /** `localStorage.setItem(key, value)`: the other key is untouched */
    method SetItem(key: Key, value: string)
      modifies this
      ensures GetItem(key) == Some(value)
      ensures key == AccessToken ==> refreshToken == old(refreshToken)
      ensures key == RefreshToken ==> accessToken == old(accessToken)
    {
      match key
      case AccessToken => accessToken := Some(value);
      case RefreshToken => refreshToken := Some(value);
    }

    /** `localStorage.removeItem(key)`: the other key is untouched */
    method RemoveItem(key: Key)
      modifies this
      ensures GetItem(key) == None
      ensures key == AccessToken ==> refreshToken == old(refreshToken)
      ensures key == RefreshToken ==> accessToken == old(accessToken)
    {
      match key
      case AccessToken => accessToken := None;
      case RefreshToken => refreshToken := None;
    }
  }
}
