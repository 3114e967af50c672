/** The request throttles (api/throttles.py): which cache key a request is
    counted under. */
module Throttles {
  import opened Wrappers
  import opened PyText

  /** `request.auth` as the rule sees it: the text of its `id` attribute when it
      has one, and its value when it is a str. None auth has neither. */
  datatype Auth = Auth(id: Option<string>, text: Option<string>)

  const ClientScope: string := "client"
  const ChatScope: string := "chat"

  /** The ident: "client:{id}" for an object with an id; otherwise
      "client:" and the first 16 characters of a non-empty str; otherwise none,
      and the request is not throttled. */
  function Ident(auth: Auth): Option<string> {
    if auth.id.Some? then Some("client:" + auth.id.value)
    else if auth.text.Some? && auth.text.value != "" then Some("client:" + Take(auth.text.value, 16))
    else None
  }

  /** `SimpleRateThrottle.cache_format`, "throttle_%(scope)s_%(ident)s". */
  function CacheFormat(scope: string, ident: string): string {
    "throttle_" + scope + "_" + ident
  }

  /** `get_cache_key` for a throttle of the given scope. */
  function CacheKey(scope: string, auth: Auth): Option<string> {
    match Ident(auth)
    case None => None
    case Some(ident) => Some(CacheFormat(scope, ident))
  }

  /** The three branches, with the id branch taking precedence over the str one. */
  lemma IdentCases(auth: Auth)
    ensures auth.id.Some? ==> Ident(auth) == Some("client:" + auth.id.value)
    ensures auth.id.None? && auth.text.Some? && auth.text.value != "" ==>
              Ident(auth).Some? && Ident(auth).value == "client:" + Take(auth.text.value, 16) &&
              |Ident(auth).value| <= 7 + 16
    ensures Ident(auth).None? <==> auth.id.None? && (auth.text.None? || auth.text.value == "")
  {
  }

  /** Tokens are told apart by their first 16 characters only: two that share
      them share a key, and ids are never confused with one another. */
  lemma TokenPrefixShared(a: string, b: string, scope: string)
    requires |a| >= 16 && |b| >= 16 && a[..16] == b[..16]
    ensures CacheKey(scope, Auth(None, Some(a))) == CacheKey(scope, Auth(None, Some(b)))
  {
    assert Take(a, 16) == a[..16] && Take(b, 16) == b[..16];
    assert a != "" && b != "";
  }

  lemma IdsKeptApart(x: string, y: string, scope: string)
    requires x != y
    ensures CacheKey(scope, Auth(Some(x), None)) != CacheKey(scope, Auth(Some(y), None))
  {
    var kx := CacheFormat(scope, "client:" + x);
    var ky := CacheFormat(scope, "client:" + y);
    var n := |"throttle_" + scope + "_client:"|;
    assert kx == ("throttle_" + scope + "_client:") + x;
    assert ky == ("throttle_" + scope + "_client:") + y;
    assert kx[n..] == x && ky[n..] == y;
  }

  /** `ChatRateThrottle` counts the same requests under "chat" rather than
      "client": the keys exist for the same auths and differ only in the scope. */
  lemma ChatDiffersOnlyInScope(auth: Auth)
    ensures CacheKey(ChatScope, auth).Some? <==> CacheKey(ClientScope, auth).Some?
    ensures CacheKey(ChatScope, auth).Some? ==>
              CacheKey(ChatScope, auth).value == "throttle_chat_" + Ident(auth).value &&
              CacheKey(ClientScope, auth).value == "throttle_client_" + Ident(auth).value
  {
  }
}
