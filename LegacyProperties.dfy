/**
 * What functions/api.js promises, stated over the model in ApiLegacy,
 * and how it shares the document with functions/api/index.js.
 */
module LegacyProperties {
  import opened Wrappers
  import opened Kv
  import opened Http
  import ApiLegacy
  import ApiIndex
  import IndexProperties

  /** POST stores the body verbatim and answers 200 "Saved", whatever the headers say. */
  lemma WriteStoresBody(kv: map<string, string>, req: Request, body: string)
    requires req.verb == "POST" && req.text == Some(body)
    ensures ApiLegacy.Handle(kv, req) == (kv[ApiLegacy.KEY := body], Respond(200, SavedText))
  {
  }

  /**
   * Any other method (GET, OPTIONS, PUT, ...) reads: it never writes, and
   * answers the stored value, or `{"users":[]}` when it is absent or `""`.
   */
  lemma ReadNeverWrites(kv: map<string, string>, req: Request)
    requires req.verb != "POST"
    ensures ApiLegacy.Handle(kv, req).0 == kv
    ensures Truthy(Lookup(kv, ApiLegacy.KEY)) ==>
      ApiLegacy.Handle(kv, req).1 == Respond(200, Document(kv[ApiLegacy.KEY]))
    ensures !Truthy(Lookup(kv, ApiLegacy.KEY)) ==>
      ApiLegacy.Handle(kv, req).1 == Respond(200, Document(ApiLegacy.EMPTY_DOCUMENT))
  {
  }

  /**
   * A read after a POST of `body` answers `body`, except that an empty body
   * reads back as the default document.
   */
  lemma WriteThenRead(kv: map<string, string>, write: Request, read: Request, body: string)
    requires write.verb == "POST" && write.text == Some(body)
    requires read.verb != "POST"
    ensures var (kv', _) := ApiLegacy.Handle(kv, write);
            ApiLegacy.Handle(kv', read).1
              == Respond(200, Document(if body == "" then ApiLegacy.EMPTY_DOCUMENT else body))
  {
    var (kv', _) := ApiLegacy.Handle(kv, write);
    assert Lookup(kv', ApiLegacy.KEY) == Some(body);
  }

  /** A second POST overwrites the first: only the last body is kept. */
  lemma LastWriteWins(kv: map<string, string>, first: Request, second: Request, body: string)
    requires first.verb == "POST" && first.text.Some?
    requires second.verb == "POST" && second.text == Some(body)
    ensures var (kv', _) := ApiLegacy.Handle(kv, first);
            ApiLegacy.Handle(kv', second).0 == kv[ApiLegacy.KEY := body]
  {
  }

  /** A rejected body read leaves the namespace as it was. */
  lemma UnreadableBodyWritesNothing(kv: map<string, string>, req: Request)
    requires req.verb == "POST" && req.text.None?
    ensures ApiLegacy.Handle(kv, req) == (kv, Threw)
  {
  }

  /**
   * Both handlers keep the document under the same key: a write through
   * this handler is what the other serves on GET /api, and this handler
   * never disturbs the other's token list or configuration.
   */
  lemma SharedDocument(kv: map<string, string>, write: Request, read: Request, body: string,
                       uuid: string, now: nat)
    requires ApiIndex.TokensWellFormed(kv)
    requires write.verb == "POST" && write.text == Some(body) && body != ""
    requires read.path == "/api" && read.verb == "GET"
    ensures var (kv', _) := ApiLegacy.Handle(kv, write);
            && ApiIndex.TokensWellFormed(kv')
            && ApiIndex.StoredTokens(kv') == ApiIndex.StoredTokens(kv)
            && ApiIndex.Handle(kv', read, uuid, now).1 == Respond(200, Document(body))
  {
    var (kv', _) := ApiLegacy.Handle(kv, write);
    ApiIndex.KeysDistinct();
    assert ApiLegacy.KEY == ApiIndex.DATA_KEY;
    assert Lookup(kv', ApiIndex.TOKEN_KEY) == Lookup(kv, ApiIndex.TOKEN_KEY);
    assert Lookup(kv', ApiIndex.DATA_KEY) == Some(body);
    IndexProperties.ReadServesDocument(kv', read, uuid, now);
  }
}
