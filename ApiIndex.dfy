/**
 * The request handler of functions/api/index.js: a token session store
 * over the KV namespace and a first-match-wins dispatcher over
 * (pathname, method). The clock (`Date.now()`) and the random UUID
 * (`crypto.randomUUID()`) are parameters; one clock reading `now` serves
 * a whole request.
 */
module ApiIndex {
  import opened Wrappers
  import opened Text
  import opened Tokens
  import opened Codec
  import opened Kv
  import opened Http

  const AUTH_KEY := "AUTH_CONFIG"
  const DATA_KEY := "USER_DATA"
  const TOKEN_KEY := "AUTH_TOKENS"

  /** Written on first use when no login configuration is stored. */
  const DEFAULT_CREDENTIALS := Credentials("admin", "123456")

  /** `JSON.stringify({ users: [] })`, served when no document is stored. */
  const EMPTY_DOCUMENT := "{\"users\":[]}"

  const BEARER := "Bearer "

  /** The three keys are distinct. */
  lemma KeysDistinct()
    ensures AUTH_KEY != TOKEN_KEY && AUTH_KEY != DATA_KEY && TOKEN_KEY != DATA_KEY
  {
    assert AUTH_KEY[5] != TOKEN_KEY[5];
    assert |AUTH_KEY| != |DATA_KEY| && |TOKEN_KEY| != |DATA_KEY|;
  }

  /**
   * The token list under AUTH_TOKENS is absent, empty or decodable; a
   * stored list that does not parse would make `verifyToken` throw.
   */
  predicate TokensWellFormed(kv: map<string, string>)
    ensures TOKEN_KEY !in kv ==> TokensWellFormed(kv)
    ensures TOKEN_KEY in kv && kv[TOKEN_KEY] == "" ==> TokensWellFormed(kv)
  {
    var tokensStr := Lookup(kv, TOKEN_KEY);
    Truthy(tokensStr) ==> DecodeTokens(tokensStr.value).Some?
  }

  /** The persisted token list; an absent or empty entry is the empty list. */
  function StoredTokens(kv: map<string, string>): (ts: seq<TokenRecord>)
    requires TokensWellFormed(kv)
    ensures !Truthy(Lookup(kv, TOKEN_KEY)) ==> ts == []
    ensures TOKEN_KEY in kv && kv[TOKEN_KEY] != "" ==> DecodeTokens(kv[TOKEN_KEY]) == Some(ts)
  {
    var tokensStr := Lookup(kv, TOKEN_KEY);
    if Truthy(tokensStr) then DecodeTokens(tokensStr.value).value else []
  }

  /** Storing a list under AUTH_TOKENS and reading it back gives that list. */
  lemma StoredTokensAfterPut(kv: map<string, string>, ts: seq<TokenRecord>)
    ensures TokensWellFormed(kv[TOKEN_KEY := EncodeTokens(ts)])
    ensures StoredTokens(kv[TOKEN_KEY := EncodeTokens(ts)]) == ts
  {
    TokensRoundTrip(ts);
  }

  /** `crypto.randomUUID() + "-" + Date.now()`, the UUID given as `uuid`. */
  function GenerateToken(uuid: string, now: nat): (t: string)
    ensures |t| > |uuid| && t[..|uuid|] == uuid && t[|uuid|] == '-'
    ensures AllDigits(t[|uuid| + 1..]) && DigitsValue(t[|uuid| + 1..]) == now
    ensures |t| > |uuid| + 1 && (|t| > |uuid| + 2 ==> t[|uuid| + 1] != '0')
  {
    var t := uuid + "-" + Decimal(now);
    assert t[|uuid| + 1..] == Decimal(now);
    DecimalRoundTrip(now);
    t
  }

  /** `request.headers.get("Authorization")?.replace("Bearer ", "")`. */
  function Bearer(header: Option<string>): (candidate: Option<string>)
    ensures candidate.None? <==> header.None?
  {
    match header
    case None => None
    case Some(h) => Some(ReplaceFirst(h, BEARER, ""))
  }

  /** `verifyToken(env, token)` at clock reading `now`. */
  function VerifyToken(kv: map<string, string>, token: Option<string>, now: nat): (valid: bool)
    requires TokensWellFormed(kv)
    ensures valid <==>
      && Truthy(token)
      && Truthy(Lookup(kv, TOKEN_KEY))
      && exists i :: 0 <= i < |StoredTokens(kv)| &&
           StoredTokens(kv)[i].token == token.value && Live(StoredTokens(kv)[i], now)
  {
    if !Truthy(token) then false
    else
      var tokensStr := Lookup(kv, TOKEN_KEY);
      if !Truthy(tokensStr) then false
      else
        var tokens := DecodeTokens(tokensStr.value).value;
        assert tokens == StoredTokens(kv);
        AnyLive(tokens, token.value, now)
  }

  /**
   * `verifyToken` as the handler runs it: the token list is read from the
   * store with one `get`, and nothing is written.
   */
  method ReadAndVerifyToken(store: Store, token: Option<string>, now: nat) returns (valid: bool)
    requires TokensWellFormed(store.kv)
    ensures valid == VerifyToken(store.kv, token, now)
  {
    if !Truthy(token) {
      return false;
    }
    var tokensStr := store.Get(TOKEN_KEY);
    if !Truthy(tokensStr) {
      return false;
    }
    var tokens := DecodeTokens(tokensStr.value).value;
    valid := AnyLive(tokens, token.value, now);
  }

  /**
   * `saveToken(env, token)`: the live part of the stored list, in order,
   * followed by the new record; only AUTH_TOKENS is written.
   */
  method SaveToken(store: Store, token: string, pruneNow: nat, stampNow: nat)
    requires TokensWellFormed(store.kv)
    modifies store
    ensures store.kv == old(store.kv)[TOKEN_KEY :=
      EncodeTokens(Prune(StoredTokens(old(store.kv)), pruneNow) + [TokenRecord(token, stampNow)])]
  {
    var tokens: seq<TokenRecord> := [];
    var tokensStr := store.Get(TOKEN_KEY);
    if Truthy(tokensStr) {
      tokens := DecodeTokens(tokensStr.value).value;
      tokens := Prune(tokens, pruneNow);
    }
    tokens := tokens + [TokenRecord(token, stampNow)];
    store.Put(TOKEN_KEY, EncodeTokens(tokens));
  }

  /** The lazy first-use write of the default login configuration. */
  function EnsureDefaultCredentials(kv: map<string, string>): (kv': map<string, string>)
    ensures Truthy(Lookup(kv', AUTH_KEY))
    ensures Truthy(Lookup(kv, AUTH_KEY)) ==> kv' == kv
    ensures !Truthy(Lookup(kv, AUTH_KEY)) ==> DecodeCredentials(kv'[AUTH_KEY]) == Some(DEFAULT_CREDENTIALS)
    ensures forall k :: k != AUTH_KEY ==> Lookup(kv', k) == Lookup(kv, k)
    ensures Lookup(kv', TOKEN_KEY) == Lookup(kv, TOKEN_KEY) && Lookup(kv', DATA_KEY) == Lookup(kv, DATA_KEY)
  {
    KeysDistinct();
    var authConfig := Lookup(kv, AUTH_KEY);
    if !Truthy(authConfig) then
      CredentialsRoundTrip(DEFAULT_CREDENTIALS);
      kv[AUTH_KEY := EncodeCredentials(DEFAULT_CREDENTIALS)]
    else kv
  }

  /** The `/api/login` branch (its `try` block), after the lazy write. */
  function HandleLogin(kv: map<string, string>, body: LoginBody, uuid: string, now: nat)
    : (r: (map<string, string>, Response))
    requires TokensWellFormed(kv)
    ensures TokensWellFormed(r.0)
    ensures forall k :: k != TOKEN_KEY ==> Lookup(r.0, k) == Lookup(kv, k)
  {
    if body.Unparsable? then (kv, Respond(500, Failed))
    else
      var config := Lookup(kv, AUTH_KEY);
      if config.None? || DecodeCredentials(config.value).None? then (kv, Respond(500, Failed))
      else
        var c := DecodeCredentials(config.value).value;
        if body.username == Some(c.username) && body.password == Some(c.password) then
          var token := GenerateToken(uuid, now);
          var tokens := Prune(StoredTokens(kv), now) + [TokenRecord(token, now)];
          StoredTokensAfterPut(kv, tokens);
          (kv[TOKEN_KEY := EncodeTokens(tokens)], Respond(200, Issued(token)))
        else (kv, Respond(401, Failed))
  }

  /**
   * `onRequest(context)` as a function of the namespace before the
   * request: the namespace after it and the response.
   */
  function Handle(kv: map<string, string>, req: Request, uuid: string, now: nat)
    : (r: (map<string, string>, Response))
    requires TokensWellFormed(kv)
    ensures TokensWellFormed(r.0)
    ensures r.1.Respond?
    ensures forall k :: k != AUTH_KEY && k != TOKEN_KEY && k != DATA_KEY ==> Lookup(r.0, k) == Lookup(kv, k)
  {
    if req.verb == "OPTIONS" then (kv, Respond(204, NoContent))
    else
      var kv1 := EnsureDefaultCredentials(kv);
      assert StoredTokens(kv1) == StoredTokens(kv);
      Route(kv1, req, uuid, now)
  }

  /** The routes after the lazy write, tried in order; the first match answers. */
  function Route(kv: map<string, string>, req: Request, uuid: string, now: nat)
    : (r: (map<string, string>, Response))
    requires TokensWellFormed(kv)
    ensures TokensWellFormed(r.0)
    ensures r.1.Respond?
    ensures forall k :: k != TOKEN_KEY && k != DATA_KEY ==> Lookup(r.0, k) == Lookup(kv, k)
  {
    if req.path == "/api/login" && req.verb == "POST" then
      HandleLogin(kv, req.json, uuid, now)
    else if req.path == "/api/check" && req.verb == "GET" then
      (kv, Respond(200, LoginState(VerifyToken(kv, Bearer(req.authorization), now))))
    else if req.path == "/api" && req.verb == "GET" then
      (kv, Respond(200, Document(OrElse(Lookup(kv, DATA_KEY), EMPTY_DOCUMENT))))
    else if req.path == "/api" && req.verb == "POST" then
      if !VerifyToken(kv, Bearer(req.authorization), now) then (kv, Respond(401, Failed))
      else if req.text.None? then (kv, Respond(500, Failed))
      else (kv[DATA_KEY := req.text.value], Respond(200, Succeeded))
    else (kv, Respond(404, NotFoundText))
  }

  /** The `/api/login` branch as the source runs it: read, compare, save. */
  method Login(store: Store, body: LoginBody, uuid: string, now: nat) returns (resp: Response)
    requires TokensWellFormed(store.kv)
    modifies store
    ensures (store.kv, resp) == HandleLogin(old(store.kv), body, uuid, now)
  {
    if body.Unparsable? {
      return Respond(500, Failed);
    }
    var config := store.Get(AUTH_KEY);
    if config.None? || DecodeCredentials(config.value).None? {
      return Respond(500, Failed);
    }
    var c := DecodeCredentials(config.value).value;
    if body.username == Some(c.username) && body.password == Some(c.password) {
      var token := GenerateToken(uuid, now);
      SaveToken(store, token, now, now);
      resp := Respond(200, Issued(token));
    } else {
      resp := Respond(401, Failed);
    }
  }

  /** `onRequest(context)`: preflight, lazy configuration, then the first matching route. */
  method OnRequest(store: Store, req: Request, uuid: string, now: nat) returns (resp: Response)
    requires TokensWellFormed(store.kv)
    modifies store
    ensures TokensWellFormed(store.kv)
    ensures (store.kv, resp) == Handle(old(store.kv), req, uuid, now)
  {
    if req.verb == "OPTIONS" {
      return Respond(204, NoContent);
    }

    var authConfig := store.Get(AUTH_KEY);
    if !Truthy(authConfig) {
      store.Put(AUTH_KEY, EncodeCredentials(DEFAULT_CREDENTIALS));
    }
    assert store.kv == EnsureDefaultCredentials(old(store.kv));
    assert StoredTokens(store.kv) == StoredTokens(old(store.kv));

    if req.path == "/api/login" && req.verb == "POST" {
      resp := Login(store, req.json, uuid, now);
      return;
    }

    if req.path == "/api/check" && req.verb == "GET" {
      var token := Bearer(req.authorization);
      var isValid := ReadAndVerifyToken(store, token, now);
      return Respond(200, LoginState(isValid));
    }

    if req.path == "/api" && req.verb == "GET" {
      var value := store.Get(DATA_KEY);
      return Respond(200, Document(OrElse(value, EMPTY_DOCUMENT)));
    }

    if req.path == "/api" && req.verb == "POST" {
      var token := Bearer(req.authorization);
      var isValid := ReadAndVerifyToken(store, token, now);
      if !isValid {
        return Respond(401, Failed);
      }
      if req.text.None? {
        return Respond(500, Failed);
      }
      store.Put(DATA_KEY, req.text.value);
      return Respond(200, Succeeded);
    }

    return Respond(404, NotFoundText);
  }
}
