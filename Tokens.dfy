/**
 * The persisted session tokens of functions/api/index.js: records
 * `{token, createdAt}` with a fixed 24-hour lifetime, the `some` test that
 * `verifyToken` applies and the `filter` that `saveToken` applies.
 */
module Tokens {

  /** One persisted session: the bearer string and the clock reading (ms) it was issued at. */
  datatype TokenRecord = TokenRecord(token: string, createdAt: nat)

  /** Token lifetime, `24 * 60 * 60 * 1000` milliseconds. */
  const TTL: nat := 24 * 60 * 60 * 1000

  /** `(now - t.createdAt) < TTL`: the record has not yet expired at `now`. */
  predicate Live(r: TokenRecord, now: nat) {
    now - r.createdAt < TTL
  }

  /** `tokens.some(t => t.token === candidate && live)`, scanned left to right. */
  function AnyLive(ts: seq<TokenRecord>, candidate: string, now: nat): (b: bool)
    ensures b <==> exists i :: 0 <= i < |ts| && ts[i].token == candidate && Live(ts[i], now)
  {
    if |ts| == 0 then false
    else if ts[0].token == candidate && Live(ts[0], now) then true
    else
      var b := AnyLive(ts[1..], candidate, now);
      assert forall i :: 1 <= i < |ts| ==> ts[i] == ts[1..][i - 1];
      b
  }

  /** `tokens.filter(t => live)`: the records still live at `now`, in their original order. */
  function Prune(ts: seq<TokenRecord>, now: nat): (kept: seq<TokenRecord>)
    ensures |kept| <= |ts|
    ensures forall r :: r in kept <==> r in ts && Live(r, now)
  {
    if |ts| == 0 then []
    else if Live(ts[0], now) then [ts[0]] + Prune(ts[1..], now)
    else Prune(ts[1..], now)
  }

  /** Pruning works record by record: it keeps the relative order of what it keeps. */
  lemma {:induction false} PruneAppend(a: seq<TokenRecord>, b: seq<TokenRecord>, now: nat)
    ensures Prune(a + b, now) == Prune(a, now) + Prune(b, now)
  {
    if |a| > 0 {
      assert (a + b)[1..] == a[1..] + b;
      PruneAppend(a[1..], b, now);
    } else {
      assert a + b == b;
    }
  }

  /** A single record survives pruning exactly when it is live. */
  lemma PruneSingle(r: TokenRecord, now: nat)
    ensures Prune([r], now) == if Live(r, now) then [r] else []
  {
    assert [r][1..] == [];
  }

  /** A list whose records are all live is left as it is. */
  lemma {:induction false} PruneAllLive(ts: seq<TokenRecord>, now: nat)
    requires forall i :: 0 <= i < |ts| ==> Live(ts[i], now)
    ensures Prune(ts, now) == ts
  {
    if |ts| > 0 {
      PruneAllLive(ts[1..], now);
      assert [ts[0]] + ts[1..] == ts;
    }
  }

  /**
   * Pruning at `earlier` and again at `later` is pruning once at `later`:
   * a record dead at the earlier time is dead later as well.
   */
  lemma {:induction false} PruneLater(ts: seq<TokenRecord>, earlier: nat, later: nat)
    requires earlier <= later
    ensures Prune(Prune(ts, earlier), later) == Prune(ts, later)
  {
    if |ts| > 0 {
      PruneLater(ts[1..], earlier, later);
      if Live(ts[0], earlier) {
        assert ([ts[0]] + Prune(ts[1..], earlier))[1..] == Prune(ts[1..], earlier);
      }
    }
  }

  /** Pruning twice at the same time prunes nothing more. */
  lemma PruneIdempotent(ts: seq<TokenRecord>, now: nat)
    ensures Prune(Prune(ts, now), now) == Prune(ts, now)
  {
    PruneLater(ts, now, now);
  }

  /**
   * Pruning is invisible to validation at the pruning time or later: only
   * records that could no longer validate are dropped.
   */
  lemma PruneKeepsValidity(ts: seq<TokenRecord>, candidate: string, pruned: nat, now: nat)
    requires pruned <= now
    ensures AnyLive(Prune(ts, pruned), candidate, now) == AnyLive(ts, candidate, now)
  {
    var p := Prune(ts, pruned);
    if AnyLive(ts, candidate, now) {
      var i :| 0 <= i < |ts| && ts[i].token == candidate && Live(ts[i], now);
      assert ts[i] in p;
      var j :| 0 <= j < |p| && p[j] == ts[i];
    }
  }

  /**
   * A token that appears nowhere in the prior list and is appended with
   * stamp `stamp` validates at `now` exactly while `now - stamp < TTL`.
   */
  lemma FreshTokenWindow(prior: seq<TokenRecord>, token: string, stamp: nat, now: nat)
    requires forall i :: 0 <= i < |prior| ==> prior[i].token != token
    ensures AnyLive(prior + [TokenRecord(token, stamp)], token, now) <==> now - stamp < TTL
  {
    var ts := prior + [TokenRecord(token, stamp)];
    assert ts[|prior|] == TokenRecord(token, stamp);
    if AnyLive(ts, token, now) {
      var i :| 0 <= i < |ts| && ts[i].token == token && Live(ts[i], now);
      assert i == |prior|;
    }
  }

  /** Appending a record for another token does not change whether `candidate` validates. */
  lemma AppendOtherKeepsValidity(prior: seq<TokenRecord>, r: TokenRecord, candidate: string, now: nat)
    requires r.token != candidate
    ensures AnyLive(prior + [r], candidate, now) == AnyLive(prior, candidate, now)
  {
    var ts := prior + [r];
    if AnyLive(ts, candidate, now) {
      var i :| 0 <= i < |ts| && ts[i].token == candidate && Live(ts[i], now);
      assert ts[i] == prior[i];
    }
    if AnyLive(prior, candidate, now) {
      var i :| 0 <= i < |prior| && prior[i].token == candidate && Live(prior[i], now);
      assert ts[i] == prior[i];
    }
  }

  /** An appended record validates at any time before it expires, whatever else the list holds. */
  lemma AppendedValidates(prior: seq<TokenRecord>, token: string, stamp: nat, now: nat)
    requires now - stamp < TTL
    ensures AnyLive(prior + [TokenRecord(token, stamp)], token, now)
  {
    assert (prior + [TokenRecord(token, stamp)])[|prior|] == TokenRecord(token, stamp);
  }
}
