/** The credential slot (lib/token.ts): one cookie, read, written and
    deleted under a single fixed name. Cookie options (expiry, `secure`,
    `sameSite`) are not part of the model. */
module Token {
  import opened Types

  /** The one cookie name that get, set and remove all address. */
  const TokenKey := "primetrade_auth_token"

  /** The token as a cookie read returns it. */
  function TokenOf(cookies: map<string, string>): (t: Option<string>)
    ensures t.Some? <==> TokenKey in cookies
    ensures t.Some? ==> t.value == cookies[TokenKey]
  {
    if TokenKey in cookies then Some(cookies[TokenKey]) else None
  }

  /** JavaScript truthiness of a token read back: a missing cookie and an
      empty string both count as "no token". */
  predicate Present(t: Option<string>)
  {
    t.Some? && t.value != ""
  }

  /** A write to the slot: `set(token)` or `remove()`. */
  datatype TokenWrite = SetToken(token: string) | RemoveToken

  function Apply(cookies: map<string, string>, w: TokenWrite): map<string, string>
  {
    match w
    case SetToken(token) => cookies[TokenKey := token]
    case RemoveToken => cookies - {TokenKey}
  }

  function Replay(cookies: map<string, string>, ws: seq<TokenWrite>): map<string, string>
    decreases |ws|
  {
    if ws == [] then cookies else Replay(Apply(cookies, ws[0]), ws[1..])
  }

  /** What the slot holds after the writes `ws`, judged by the last one. */
  function LastWritten(before: Option<string>, ws: seq<TokenWrite>): Option<string>
  {
    if ws == [] then before
    else match ws[|ws| - 1]
      case SetToken(token) => Some(token)
      case RemoveToken => None
  }

  /** get returns the token of the last set, unless a remove came after it,
      and no write touches another cookie. */
  lemma {:induction false} ReplayReadsLastWrite(cookies: map<string, string>, ws: seq<TokenWrite>)
    ensures TokenOf(Replay(cookies, ws)) == LastWritten(TokenOf(cookies), ws)
    ensures forall k | k != TokenKey :: (k in Replay(cookies, ws) <==> k in cookies)
    ensures forall k | k != TokenKey && k in cookies :: Replay(cookies, ws)[k] == cookies[k]
    decreases |ws|
  {
    if ws != [] {
      var next := Apply(cookies, ws[0]);
      ReplayReadsLastWrite(next, ws[1..]);
      if |ws| > 1 {
        assert ws[1..][|ws[1..]| - 1] == ws[|ws| - 1];
      }
    }
  }

  class CookieJar {
    var cookies: map<string, string>

    constructor (initial: map<string, string>)
      ensures cookies == initial
    {
      cookies := initial;
    }

    function Token(): Option<string>
      reads this
    {
      TokenOf(cookies)
    }

    /** tokenManager.get (also exported as getToken). */
    method Get() returns (t: Option<string>)
      ensures t == TokenOf(cookies)
      ensures t.Some? <==> TokenKey in cookies
    {
      t := if TokenKey in cookies then Some(cookies[TokenKey]) else None;
    }

    /** tokenManager.set (also exported as setToken): stores the string as
        given, without looking at its shape or content. */
    method Set(token: string)
      modifies this
      ensures cookies == Apply(old(cookies), SetToken(token))
      ensures Token() == Some(token)
    {
      cookies := cookies[TokenKey := token];
    }

    /** tokenManager.remove (also exported as removeToken). */
    method Remove()
      modifies this
      ensures cookies == Apply(old(cookies), RemoveToken)
      ensures Token() == None
    {
      cookies := cookies - {TokenKey};
    }
  }
}
