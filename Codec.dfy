/**
 * The string form in which the handlers persist structured values
 * (`JSON.stringify` / `JSON.parse` in the source). The model does not
 * reproduce JSON syntax: it uses a length-prefixed form whose only
 * properties the handlers rely on are proved here: decoding an encoding
 * gives the value back, and an encoding is never the empty (falsy) string.
 *
 *   number  n        ~>  Decimal(n) ":"
 *   string  t        ~>  Decimal(|t|) ":" t
 *   token list       ~>  "[" record* "]"   with record = string(token) number(createdAt)
 *   credentials      ~>  "{" string(username) string(password) "}"
 */
module Codec {
  import opened Wrappers
  import opened Text
  import opened Tokens

  /** The stored `{username, password}` login configuration. */
  datatype Credentials = Credentials(username: string, password: string)

  function EncodeNat(n: nat): string {
    Decimal(n) + ":"
  }

  /** Reads a number terminated by ':' off the front of `s`; returns it and the rest. */
  function DecodeNat(s: string): (r: Option<(nat, string)>)
    ensures r.Some? ==> |r.value.1| < |s|
  {
    match IndexOf(s, ':')
    case None => None
    case Some(i) =>
      if i == 0 || !AllDigits(s[..i]) then None
      else Some((DigitsValue(s[..i]), s[i + 1..]))
  }

  lemma DecodeEncodeNat(n: nat, rest: string)
    ensures DecodeNat(EncodeNat(n) + rest) == Some((n, rest))
  {
    var d := Decimal(n);
    var s := EncodeNat(n) + rest;
    assert s == d + [':'] + rest;
    assert s[|d|] == ':';
    assert ':' !in d by {
      forall k | 0 <= k < |d| ensures d[k] != ':' { assert IsDigit(d[k]); }
    }
    var i := IndexOf(s, ':').value;
    assert i == |d|;
    assert s[..i] == d;
    assert s[i + 1..] == rest;
    DecimalRoundTrip(n);
  }

  function EncodeString(t: string): string {
    EncodeNat(|t|) + t
  }

  /** Reads a length-prefixed string off the front of `s`; returns it and the rest. */
  function DecodeString(s: string): (r: Option<(string, string)>)
    ensures r.Some? ==> |r.value.1| < |s|
    ensures r.Some? ==> |r.value.0| + |r.value.1| < |s|
  {
    match DecodeNat(s)
    case None => None
    case Some((n, rest)) =>
      if n <= |rest| then Some((rest[..n], rest[n..])) else None
  }

  lemma DecodeEncodeString(t: string, rest: string)
    ensures DecodeString(EncodeString(t) + rest) == Some((t, rest))
  {
    assert EncodeString(t) + rest == EncodeNat(|t|) + (t + rest);
    DecodeEncodeNat(|t|, t + rest);
    assert (t + rest)[..|t|] == t && (t + rest)[|t|..] == rest;
  }

  function EncodeRecord(r: TokenRecord): (s: string)
    ensures |s| > 0
  {
    EncodeString(r.token) + EncodeNat(r.createdAt)
  }

  function DecodeRecord(s: string): (r: Option<(TokenRecord, string)>)
    ensures r.Some? ==> |r.value.1| < |s|
  {
    match DecodeString(s)
    case None => None
    case Some((token, rest)) =>
      match DecodeNat(rest)
      case None => None
      case Some((createdAt, rest')) => Some((TokenRecord(token, createdAt), rest'))
  }

  lemma DecodeEncodeRecord(r: TokenRecord, rest: string)
    ensures DecodeRecord(EncodeRecord(r) + rest) == Some((r, rest))
  {
    assert EncodeRecord(r) + rest == EncodeString(r.token) + (EncodeNat(r.createdAt) + rest);
    DecodeEncodeString(r.token, EncodeNat(r.createdAt) + rest);
    DecodeEncodeNat(r.createdAt, rest);
  }

  function EncodeRecords(ts: seq<TokenRecord>): string {
    if |ts| == 0 then "" else EncodeRecord(ts[0]) + EncodeRecords(ts[1..])
  }

  function DecodeRecords(s: string): Option<seq<TokenRecord>>
    decreases |s|
  {
    if |s| == 0 then Some([])
    else match DecodeRecord(s)
      case None => None
      case Some((r, rest)) =>
        match DecodeRecords(rest)
        case None => None
        case Some(ts) => Some([r] + ts)
  }

  /** Decoding a record followed by a decodable remainder. */
  lemma DecodeRecordsCons(r: TokenRecord, rest: string, ts: seq<TokenRecord>)
    requires DecodeRecords(rest) == Some(ts)
    ensures DecodeRecords(EncodeRecord(r) + rest) == Some([r] + ts)
  {
    var s := EncodeRecord(r) + rest;
    DecodeEncodeRecord(r, rest);
    assert |s| != 0;
    assert DecodeRecord(s) == Some((r, rest));
  }

  lemma {:induction false} DecodeEncodeRecords(ts: seq<TokenRecord>)
    ensures DecodeRecords(EncodeRecords(ts)) == Some(ts)
  {
    if |ts| == 0 {
      assert EncodeRecords(ts) == "";
    } else {
      DecodeEncodeRecords(ts[1..]);
      DecodeRecordsCons(ts[0], EncodeRecords(ts[1..]), ts[1..]);
      assert EncodeRecords(ts) == EncodeRecord(ts[0]) + EncodeRecords(ts[1..]);
      assert [ts[0]] + ts[1..] == ts;
    }
  }

  /** `JSON.stringify(tokens)`. */
  function EncodeTokens(ts: seq<TokenRecord>): (s: string)
    ensures |s| >= 2
  {
    "[" + EncodeRecords(ts) + "]"
  }

  /** `JSON.parse(tokensStr)` for a token list; `None` where the source would throw. */
  function DecodeTokens(s: string): (r: Option<seq<TokenRecord>>)
    ensures r.Some? ==> |s| >= 2 && s[0] == '[' && s[|s| - 1] == ']'
  {
    if |s| >= 2 && s[0] == '[' && s[|s| - 1] == ']' then DecodeRecords(s[1..|s| - 1]) else None
  }

  /** A stored token list reads back as the list that was stored. */
  lemma TokensRoundTrip(ts: seq<TokenRecord>)
    ensures DecodeTokens(EncodeTokens(ts)) == Some(ts)
  {
    var s := EncodeTokens(ts);
    assert s[1..|s| - 1] == EncodeRecords(ts);
    DecodeEncodeRecords(ts);
  }

  /** `JSON.stringify({username, password})`. */
  function EncodeCredentials(c: Credentials): (s: string)
    ensures |s| >= 2
  {
    "{" + EncodeString(c.username) + EncodeString(c.password) + "}"
  }

  /** `JSON.parse(config)` for the login configuration; `None` where the source would throw. */
  function DecodeCredentials(s: string): (r: Option<Credentials>)
    ensures r.Some? ==> |s| >= 2 && s[0] == '{' && s[|s| - 1] == '}'
    ensures r.Some? ==> |r.value.username| + |r.value.password| + 2 <= |s|
  {
    if |s| >= 2 && s[0] == '{' && s[|s| - 1] == '}' then
      match DecodeString(s[1..|s| - 1])
      case None => None
      case Some((username, rest)) =>
        match DecodeString(rest)
        case None => None
        case Some((password, rest')) =>
          if |rest'| == 0 then Some(Credentials(username, password)) else None
    else None
  }

  /** A stored login configuration reads back as the one that was stored. */
  lemma CredentialsRoundTrip(c: Credentials)
    ensures DecodeCredentials(EncodeCredentials(c)) == Some(c)
  {
    var s := EncodeCredentials(c);
    var inner := EncodeString(c.username) + EncodeString(c.password);
    assert s[1..|s| - 1] == inner;
    assert inner == EncodeString(c.username) + (EncodeString(c.password) + "");
    DecodeEncodeString(c.username, EncodeString(c.password));
    assert EncodeString(c.password) == EncodeString(c.password) + "";
    DecodeEncodeString(c.password, "");
  }
}
