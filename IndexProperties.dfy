/**
 * What functions/api/index.js promises, stated over the model in
 * ApiIndex: bearer extraction, the token lifetime, pruning on save, the
 * dispatch order, and the login / check / read / write routes, alone and
 * in sequence.
 */
module IndexProperties {
  import opened Wrappers
  import opened Text
  import opened Tokens
  import opened Codec
  import opened Kv
  import opened Http
  import opened ApiIndex

  // ---------------------------------------------------------------------
  // Bearer extraction: `replace` of the first "Bearer ", wherever it is

  /** The usual header form `Bearer <token>` yields `<token>`. */
  lemma BearerOfPrefixed(t: string)
    ensures Bearer(Some(BEARER + t)) == Some(t)
  {
    var h := BEARER + t;
    assert h[0..|BEARER|] == BEARER;
    ReplaceFirstAt(h, BEARER, "", 0);
    assert h[..0] + "" + h[|BEARER|..] == t;
  }

  /** The first occurrence is removed wherever it stands, not only at the front. */
  lemma BearerRemovesFirstOccurrence(h: string, i: nat)
    requires OccursAt(h, BEARER, i)
    requires forall j :: 0 <= j < i ==> !OccursAt(h, BEARER, j)
    ensures Bearer(Some(h)) == Some(h[..i] + h[i + |BEARER|..])
  {
    ReplaceFirstAt(h, BEARER, "", i);
    assert h[..i] + "" + h[i + |BEARER|..] == h[..i] + h[i + |BEARER|..];
  }

  /** For example `"xBearer y"` yields `"xy"`: extraction is not a prefix strip. */
  lemma BearerInsideHeader()
    ensures Bearer(Some("xBearer y")) == Some("xy")
  {
    var h := "xBearer y";
    assert !OccursAt(h, BEARER, 0) by { assert h[0] != BEARER[0]; }
    assert OccursAt(h, BEARER, 1) by { assert h[1..8] == BEARER; }
    BearerRemovesFirstOccurrence(h, 1);
    assert h[..1] + h[8..] == "xy";
  }

  /** A header without the keyword is taken whole as the candidate token. */
  lemma BearerWithoutKeyword(h: string)
    requires forall j :: 0 <= j <= |h| ==> !OccursAt(h, BEARER, j)
    ensures Bearer(Some(h)) == Some(h)
  {
    ReplaceFirstAbsent(h, BEARER, "");
  }

  /** A missing header and the bare header `"Bearer "` both fail verification. */
  lemma MissingOrBareHeaderRejected(kv: map<string, string>, now: nat)
    requires TokensWellFormed(kv)
    ensures Bearer(None) == None && !VerifyToken(kv, Bearer(None), now)
    ensures Bearer(Some(BEARER)) == Some("") && !VerifyToken(kv, Bearer(Some(BEARER)), now)
  {
    BearerOfPrefixed("");
    assert BEARER + "" == BEARER;
  }

  // ---------------------------------------------------------------------
  // The token store

  /** The namespace after `saveToken(token)` with the given clock readings. */
  function AfterSave(kv: map<string, string>, token: string, pruneNow: nat, stampNow: nat)
    : map<string, string>
    requires TokensWellFormed(kv)
  {
    kv[TOKEN_KEY := EncodeTokens(Prune(StoredTokens(kv), pruneNow) + [TokenRecord(token, stampNow)])]
  }

  /**
   * After a save the list holds the records live at the pruning time, in
   * their original order, then the new record; nothing else is touched.
   */
  lemma SaveContents(kv: map<string, string>, token: string, pruneNow: nat, stampNow: nat)
    requires TokensWellFormed(kv)
    ensures TokensWellFormed(AfterSave(kv, token, pruneNow, stampNow))
    ensures StoredTokens(AfterSave(kv, token, pruneNow, stampNow))
         == Prune(StoredTokens(kv), pruneNow) + [TokenRecord(token, stampNow)]
    ensures forall r :: r in StoredTokens(AfterSave(kv, token, pruneNow, stampNow)) <==>
              (r in StoredTokens(kv) && Live(r, pruneNow)) || r == TokenRecord(token, stampNow)
    ensures forall k :: k != TOKEN_KEY ==> Lookup(AfterSave(kv, token, pruneNow, stampNow), k) == Lookup(kv, k)
  {
    StoredTokensAfterPut(kv, Prune(StoredTokens(kv), pruneNow) + [TokenRecord(token, stampNow)]);
  }

  /** A token just saved with stamp `stampNow` validates at any `now` with `now - stampNow < TTL`. */
  lemma SavedTokenValidates(kv: map<string, string>, token: string, pruneNow: nat, stampNow: nat, now: nat)
    requires TokensWellFormed(kv)
    requires token != ""
    requires now - stampNow < TTL
    ensures TokensWellFormed(AfterSave(kv, token, pruneNow, stampNow))
    ensures VerifyToken(AfterSave(kv, token, pruneNow, stampNow), Some(token), now)
  {
    SaveContents(kv, token, pruneNow, stampNow);
    AppendedValidates(Prune(StoredTokens(kv), pruneNow), token, stampNow, now);
  }

  /**
   * A token not already in the list validates after its save exactly
   * while `now - stampNow < TTL`: from `stampNow + TTL` on it is rejected
   * although it is still stored.
   */
  lemma SavedTokenWindow(kv: map<string, string>, token: string, pruneNow: nat, stampNow: nat, now: nat)
    requires TokensWellFormed(kv)
    requires token != ""
    requires forall i :: 0 <= i < |StoredTokens(kv)| ==> StoredTokens(kv)[i].token != token
    ensures TokensWellFormed(AfterSave(kv, token, pruneNow, stampNow))
    ensures VerifyToken(AfterSave(kv, token, pruneNow, stampNow), Some(token), now) <==> now - stampNow < TTL
  {
    SaveContents(kv, token, pruneNow, stampNow);
    var kept := Prune(StoredTokens(kv), pruneNow);
    forall i | 0 <= i < |kept| ensures kept[i].token != token {
      assert kept[i] in StoredTokens(kv);
    }
    FreshTokenWindow(kept, token, stampNow, now);
  }

  /**
   * Saving a token does not change whether any other token validates at
   * the pruning time or later.
   */
  lemma SaveKeepsOtherSessions(kv: map<string, string>, token: string, pruneNow: nat, stampNow: nat,
                               other: string, now: nat)
    requires TokensWellFormed(kv)
    requires other != token
    requires pruneNow <= now
    ensures TokensWellFormed(AfterSave(kv, token, pruneNow, stampNow))
    ensures VerifyToken(AfterSave(kv, token, pruneNow, stampNow), Some(other), now)
         == VerifyToken(kv, Some(other), now)
  {
    SaveContents(kv, token, pruneNow, stampNow);
    var kept := Prune(StoredTokens(kv), pruneNow);
    PruneKeepsValidity(StoredTokens(kv), other, pruneNow, now);
    AppendOtherKeepsValidity(kept, TokenRecord(token, stampNow), other, now);
  }

  // ---------------------------------------------------------------------
  // Dispatch order and the lazy configuration write

  /** Writing the default configuration a second time changes nothing. */
  lemma BootstrapIdempotent(kv: map<string, string>)
    ensures EnsureDefaultCredentials(EnsureDefaultCredentials(kv)) == EnsureDefaultCredentials(kv)
  {
  }

  /** OPTIONS on any path answers 204 before any read or write. */
  lemma PreflightIsInert(kv: map<string, string>, req: Request, uuid: string, now: nat)
    requires TokensWellFormed(kv)
    requires req.verb == "OPTIONS"
    ensures Handle(kv, req, uuid, now) == (kv, Respond(204, NoContent))
  {
  }

  /**
   * Every other request leaves the default configuration in place when
   * none was stored, and otherwise leaves the stored one unchanged.
   */
  lemma RequestsBootstrapConfiguration(kv: map<string, string>, req: Request, uuid: string, now: nat)
    requires TokensWellFormed(kv)
    requires req.verb != "OPTIONS"
    ensures Truthy(Lookup(kv, AUTH_KEY)) ==> Lookup(Handle(kv, req, uuid, now).0, AUTH_KEY) == Lookup(kv, AUTH_KEY)
    ensures !Truthy(Lookup(kv, AUTH_KEY)) ==>
      DecodeCredentials(Handle(kv, req, uuid, now).0[AUTH_KEY]) == Some(DEFAULT_CREDENTIALS)
  {
    var kv1 := EnsureDefaultCredentials(kv);
    assert Lookup(Handle(kv, req, uuid, now).0, AUTH_KEY) == Lookup(kv1, AUTH_KEY);
  }

  /** The (path, method) pairs the handler serves. */
  predicate Routed(req: Request) {
    || (req.path == "/api/login" && req.verb == "POST")
    || (req.path == "/api/check" && req.verb == "GET")
    || (req.path == "/api" && req.verb == "GET")
    || (req.path == "/api" && req.verb == "POST")
  }

  /**
   * Any other pair answers 404 after the lazy write, including a known
   * path with another method: there is no 405.
   */
  lemma UnroutedIsNotFound(kv: map<string, string>, req: Request, uuid: string, now: nat)
    requires TokensWellFormed(kv)
    requires req.verb != "OPTIONS" && !Routed(req)
    ensures Handle(kv, req, uuid, now) == (EnsureDefaultCredentials(kv), Respond(404, NotFoundText))
  {
  }

  // ---------------------------------------------------------------------
  // The routes

  /**
   * POST /api/login with the stored credentials answers 200 with a fresh
   * token and appends exactly that token to the pruned list.
   */
  lemma LoginAccepted(kv: map<string, string>, req: Request, uuid: string, now: nat)
    requires TokensWellFormed(kv)
    requires req.path == "/api/login" && req.verb == "POST" && req.json.Fields?
    requires var config := EnsureDefaultCredentials(kv)[AUTH_KEY];
             DecodeCredentials(config).Some? &&
             req.json.username == Some(DecodeCredentials(config).value.username) &&
             req.json.password == Some(DecodeCredentials(config).value.password)
    ensures var (kv', resp) := Handle(kv, req, uuid, now);
      && resp == Respond(200, Issued(GenerateToken(uuid, now)))
      && StoredTokens(kv') == Prune(StoredTokens(kv), now) + [TokenRecord(GenerateToken(uuid, now), now)]
      && forall k :: k != TOKEN_KEY ==> Lookup(kv', k) == Lookup(EnsureDefaultCredentials(kv), k)
  {
    var kv1 := EnsureDefaultCredentials(kv);
    assert StoredTokens(kv1) == StoredTokens(kv);
    assert Handle(kv, req, uuid, now) == HandleLogin(kv1, req.json, uuid, now);
    var tokens := Prune(StoredTokens(kv1), now) + [TokenRecord(GenerateToken(uuid, now), now)];
    LoginMatchSaves(kv1, req.json, uuid, now);
    StoredTokensAfterPut(kv1, tokens);
  }

  /** The `/api/login` branch on matching credentials: save the new token, answer 200 with it. */
  lemma LoginMatchSaves(kv: map<string, string>, body: LoginBody, uuid: string, now: nat)
    requires TokensWellFormed(kv)
    requires AUTH_KEY in kv && body.Fields? && DecodeCredentials(kv[AUTH_KEY]).Some?
    requires body.username == Some(DecodeCredentials(kv[AUTH_KEY]).value.username)
    requires body.password == Some(DecodeCredentials(kv[AUTH_KEY]).value.password)
    ensures HandleLogin(kv, body, uuid, now)
         == (kv[TOKEN_KEY := EncodeTokens(Prune(StoredTokens(kv), now) + [TokenRecord(GenerateToken(uuid, now), now)])],
             Respond(200, Issued(GenerateToken(uuid, now))))
  {
  }

  /** On a store never configured, `admin` / `123456` logs in. */
  lemma FirstLoginWithDefaults(kv: map<string, string>, req: Request, uuid: string, now: nat)
    requires TokensWellFormed(kv)
    requires !Truthy(Lookup(kv, AUTH_KEY))
    requires req.path == "/api/login" && req.verb == "POST"
    requires req.json == Fields(Some("admin"), Some("123456"))
    ensures Handle(kv, req, uuid, now).1 == Respond(200, Issued(GenerateToken(uuid, now)))
  {
    LoginAccepted(kv, req, uuid, now);
  }

  /**
   * Credentials that differ from the stored ones in either field answer
   * 401; the token list and the document are unchanged.
   */
  lemma LoginRejected(kv: map<string, string>, req: Request, uuid: string, now: nat)
    requires TokensWellFormed(kv)
    requires req.path == "/api/login" && req.verb == "POST" && req.json.Fields?
    requires var config := EnsureDefaultCredentials(kv)[AUTH_KEY];
             DecodeCredentials(config).Some? &&
             (req.json.username != Some(DecodeCredentials(config).value.username) ||
              req.json.password != Some(DecodeCredentials(config).value.password))
    ensures Handle(kv, req, uuid, now) == (EnsureDefaultCredentials(kv), Respond(401, Failed))
    ensures Lookup(Handle(kv, req, uuid, now).0, TOKEN_KEY) == Lookup(kv, TOKEN_KEY)
    ensures Lookup(Handle(kv, req, uuid, now).0, DATA_KEY) == Lookup(kv, DATA_KEY)
  {
    var kv1 := EnsureDefaultCredentials(kv);
    assert Handle(kv, req, uuid, now) == HandleLogin(kv1, req.json, uuid, now);
  }

  /** A body that does not parse, or a stored configuration that does not, answers 500 and writes nothing more. */
  lemma LoginFailure(kv: map<string, string>, req: Request, uuid: string, now: nat)
    requires TokensWellFormed(kv)
    requires req.path == "/api/login" && req.verb == "POST"
    requires req.json.Unparsable? || DecodeCredentials(EnsureDefaultCredentials(kv)[AUTH_KEY]).None?
    ensures Handle(kv, req, uuid, now) == (EnsureDefaultCredentials(kv), Respond(500, Failed))
  {
  }

  /** GET /api/check always answers 200 and reports `verifyToken`; it writes nothing but the lazy write. */
  lemma CheckReports(kv: map<string, string>, req: Request, uuid: string, now: nat)
    requires TokensWellFormed(kv)
    requires req.path == "/api/check" && req.verb == "GET"
    ensures Handle(kv, req, uuid, now)
         == (EnsureDefaultCredentials(kv), Respond(200, LoginState(VerifyToken(kv, Bearer(req.authorization), now))))
  {
    assert StoredTokens(EnsureDefaultCredentials(kv)) == StoredTokens(kv);
  }

  /** GET /api serves the stored document, or `{"users":[]}` when it is absent or empty. */
  lemma ReadServesDocument(kv: map<string, string>, req: Request, uuid: string, now: nat)
    requires TokensWellFormed(kv)
    requires req.path == "/api" && req.verb == "GET"
    ensures Handle(kv, req, uuid, now).0 == EnsureDefaultCredentials(kv)
    ensures Truthy(Lookup(kv, DATA_KEY)) ==> Handle(kv, req, uuid, now).1 == Respond(200, Document(kv[DATA_KEY]))
    ensures !Truthy(Lookup(kv, DATA_KEY)) ==> Handle(kv, req, uuid, now).1 == Respond(200, Document(EMPTY_DOCUMENT))
  {
    var kv1 := EnsureDefaultCredentials(kv);
    assert Handle(kv, req, uuid, now) == Route(kv1, req, uuid, now);
    assert Route(kv1, req, uuid, now) == (kv1, Respond(200, Document(OrElse(Lookup(kv1, DATA_KEY), EMPTY_DOCUMENT))));
  }

  /** Two reads of /api with nothing in between answer the same and leave the same namespace. */
  lemma ReadIsRepeatable(kv: map<string, string>, req: Request, uuid: string, uuid': string, now: nat, now': nat)
    requires TokensWellFormed(kv)
    requires req.path == "/api" && req.verb == "GET"
    ensures var (kv1, first) := Handle(kv, req, uuid, now);
            Handle(kv1, req, uuid', now') == (kv1, first)
  {
    var kv1 := EnsureDefaultCredentials(kv);
    ReadServesDocument(kv, req, uuid, now);
    ReadServesDocument(kv1, req, uuid', now');
    BootstrapIdempotent(kv);
    assert Lookup(kv1, DATA_KEY) == Lookup(kv, DATA_KEY);
  }

  /** POST /api without a valid token answers 401 and leaves the document as it was. */
  lemma UnauthorisedWriteRejected(kv: map<string, string>, req: Request, uuid: string, now: nat)
    requires TokensWellFormed(kv)
    requires req.path == "/api" && req.verb == "POST"
    requires !VerifyToken(kv, Bearer(req.authorization), now)
    ensures Handle(kv, req, uuid, now) == (EnsureDefaultCredentials(kv), Respond(401, Failed))
    ensures Lookup(Handle(kv, req, uuid, now).0, DATA_KEY) == Lookup(kv, DATA_KEY)
  {
    assert StoredTokens(EnsureDefaultCredentials(kv)) == StoredTokens(kv);
  }

  /** POST /api with a valid token stores the body verbatim and answers 200; an unreadable body answers 500. */
  lemma AuthorisedWriteStores(kv: map<string, string>, req: Request, uuid: string, now: nat)
    requires TokensWellFormed(kv)
    requires req.path == "/api" && req.verb == "POST"
    requires VerifyToken(kv, Bearer(req.authorization), now)
    ensures req.text.Some? ==>
      Handle(kv, req, uuid, now) == (EnsureDefaultCredentials(kv)[DATA_KEY := req.text.value], Respond(200, Succeeded))
    ensures req.text.None? ==>
      Handle(kv, req, uuid, now) == (EnsureDefaultCredentials(kv), Respond(500, Failed))
  {
    var kv1 := EnsureDefaultCredentials(kv);
    assert StoredTokens(kv1) == StoredTokens(kv);
    assert VerifyToken(kv1, Bearer(req.authorization), now);
    assert Handle(kv, req, uuid, now) == Route(kv1, req, uuid, now);
    assert req.path != "/api/login" && req.path != "/api/check" && req.verb != "GET";
  }

  // ---------------------------------------------------------------------
  // Requests in sequence

  /**
   * A token issued by a successful login is reported as logged in by
   * GET /api/check, with header `Bearer <token>`, until it expires.
   */
  lemma LoginThenCheck(kv: map<string, string>, login: Request, check: Request,
                       uuid: string, uuid': string, t0: nat, t1: nat)
    requires TokensWellFormed(kv)
    requires login.path == "/api/login" && login.verb == "POST" && login.json.Fields?
    requires var config := EnsureDefaultCredentials(kv)[AUTH_KEY];
             DecodeCredentials(config).Some? &&
             login.json.username == Some(DecodeCredentials(config).value.username) &&
             login.json.password == Some(DecodeCredentials(config).value.password)
    requires check.path == "/api/check" && check.verb == "GET"
    requires check.authorization == Some(BEARER + GenerateToken(uuid, t0))
    requires t1 - t0 < TTL
    ensures var (kv1, _) := Handle(kv, login, uuid, t0);
            Handle(kv1, check, uuid', t1).1 == Respond(200, LoginState(true))
  {
    var token := GenerateToken(uuid, t0);
    LoginAccepted(kv, login, uuid, t0);
    var (kv1, _) := Handle(kv, login, uuid, t0);
    CheckReports(kv1, check, uuid', t1);
    BearerOfPrefixed(token);
    AppendedValidates(Prune(StoredTokens(kv), t0), token, t0, t1);
  }

  /**
   * Log in, write a document with the issued token, read it back: the
   * read returns the written body (or the default if it was empty).
   */
  lemma LoginWriteRead(kv: map<string, string>, login: Request, write: Request, read: Request,
                       uuid: string, t0: nat, t1: nat, t2: nat)
    requires TokensWellFormed(kv)
    requires login.path == "/api/login" && login.verb == "POST" && login.json.Fields?
    requires var config := EnsureDefaultCredentials(kv)[AUTH_KEY];
             DecodeCredentials(config).Some? &&
             login.json.username == Some(DecodeCredentials(config).value.username) &&
             login.json.password == Some(DecodeCredentials(config).value.password)
    requires write.path == "/api" && write.verb == "POST" && write.text.Some?
    requires write.authorization == Some(BEARER + GenerateToken(uuid, t0))
    requires t1 - t0 < TTL
    requires read.path == "/api" && read.verb == "GET"
    ensures var (kv1, _) := Handle(kv, login, uuid, t0);
            var (kv2, written) := Handle(kv1, write, uuid, t1);
            && written == Respond(200, Succeeded)
            && Handle(kv2, read, uuid, t2).1 == Respond(200, Document(OrElse(write.text, EMPTY_DOCUMENT)))
  {
    var token := GenerateToken(uuid, t0);
    LoginAccepted(kv, login, uuid, t0);
    var (kv1, _) := Handle(kv, login, uuid, t0);
    BearerOfPrefixed(token);
    AppendedValidates(Prune(StoredTokens(kv), t0), token, t0, t1);
    assert VerifyToken(kv1, Bearer(write.authorization), t1);
    AuthorisedWriteStores(kv1, write, uuid, t1);
    var (kv2, _) := Handle(kv1, write, uuid, t1);
    ReadServesDocument(kv2, read, uuid, t2);
  }
}
