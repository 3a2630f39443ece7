/**
 * The request handler of functions/api.js: POST stores the raw body under
 * USER_DATA without any authorisation check; every other method reads it
 * back, falling back to `{"users":[]}`.
 */
module ApiLegacy {
  import opened Wrappers
  import opened Kv
  import opened Http

  /** The only key this handler reads or writes. */
  const KEY := "USER_DATA"

  /** `JSON.stringify({ users: [] })`. */
  const EMPTY_DOCUMENT := "{\"users\":[]}"

  /** `onRequest(context)` as a function: the namespace after the request, and the response. */
  function Handle(kv: map<string, string>, req: Request): (r: (map<string, string>, Response))
    ensures forall k :: k != KEY ==> Lookup(r.0, k) == Lookup(kv, k)
    ensures req.verb != "POST" ==> r.0 == kv
  {
    if req.verb == "POST" then
      match req.text
      case None => (kv, Threw)
      case Some(data) => (kv[KEY := data], Respond(200, SavedText))
    else
      (kv, Respond(200, Document(OrElse(Lookup(kv, KEY), EMPTY_DOCUMENT))))
  }

  /** `onRequest(context)`: write on POST, otherwise read with a default. */
  method OnRequest(store: Store, req: Request) returns (resp: Response)
    modifies store
    ensures (store.kv, resp) == Handle(old(store.kv), req)
  {
    if req.verb == "POST" {
      if req.text.None? {
        return Threw;
      }
      var data := req.text.value;
      store.Put(KEY, data);
      return Respond(200, SavedText);
    }

    var value := store.Get(KEY);
    return Respond(200, Document(OrElse(value, EMPTY_DOCUMENT)));
  }
}
