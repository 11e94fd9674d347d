/**
 * identity-service/src/models/RefreshToken.js: the RefreshToken collection.
 * A record holds a required, unique `token` string, the required id of its
 * user, and the `createdAt`/`updatedAt` timestamps the schema option adds.
 * The schema declares no `expiresAt` path, so Mongoose's strict mode drops
 * an `expiresAt` given on create: a stored record never has one.
 */
module RefreshTokens {
  import opened Wrappers

  datatype RefreshToken = RefreshToken(token: string, user: string, createdAt: int, updatedAt: int, expiresAt: Option<int>)

  /** Why `RefreshToken.create` rejects a document. */
  datatype StoreError = TokenRequired | UserRequired | DuplicateToken

  /** What the schema's validators and the unique index demand of every stored record. */
  predicate Stored(t: RefreshToken) {
    t.token != "" && t.user != "" && t.createdAt <= t.updatedAt
  }

  predicate UniqueTokens(ts: seq<RefreshToken>) {
    forall i, j :: 0 <= i < j < |ts| ==> ts[i].token != ts[j].token
  }

  /** The collection invariant: every record valid, tokens unique, as the schema and its index keep them. */
  predicate TableValid(ts: seq<RefreshToken>) {
    UniqueTokens(ts) && forall i :: 0 <= i < |ts| ==> Stored(ts[i])
  }

  /** Nothing in the collection carries an expiry: what the schema as written guarantees. */
  predicate NoExpiry(ts: seq<RefreshToken>) {
    forall i :: 0 <= i < |ts| ==> ts[i].expiresAt.None?
  }

  /**
   * `storedToken.expiresAt < new Date()`: an absent expiry compares as
   * `undefined < now`, which is false, so such a record is never expired.
   */
  predicate Expired(t: RefreshToken, now: int) {
    t.expiresAt.Some? && t.expiresAt.value < now
  }

  /** `RefreshToken.findOne({token})`: the position of the record holding `token`. */
  function Find(ts: seq<RefreshToken>, token: string): (r: Option<nat>)
    ensures r.Some? ==> r.value < |ts| && ts[r.value].token == token
    ensures r.None? <==> forall i :: 0 <= i < |ts| ==> ts[i].token != token
  {
    if ts == [] then None
    else if ts[0].token == token then Some(0)
    else
      var rest := Find(ts[1..], token);
      if rest.Some? then Some(rest.value + 1) else None
  }

  /** `deleteOne`: the record at position `i` goes, the others keep their order. */
  function RemoveAt(ts: seq<RefreshToken>, i: nat): (r: seq<RefreshToken>)
    requires i < |ts|
    ensures |r| == |ts| - 1
    ensures forall k :: 0 <= k < |r| ==> r[k] == ts[if k < i then k else k + 1]
  {
    ts[..i] + ts[i + 1..]
  }

  /**
   * `RefreshToken.deleteOne({token})`: removes the matching record, if there
   * is one. Only a record holding `token` can go, every record with another
   * token stays, and in a valid table the token is found no more.
   */
  function Delete(ts: seq<RefreshToken>, token: string): (r: seq<RefreshToken>)
    ensures Find(ts, token).None? ==> r == ts
    ensures Find(ts, token).Some? ==> r == RemoveAt(ts, Find(ts, token).value)
    ensures |r| == |ts| - (if Find(ts, token).Some? then 1 else 0)
    ensures forall t :: t in r ==> t in ts
    ensures forall t :: t in ts && t.token != token ==> t in r
    ensures TableValid(ts) ==> Find(r, token).None?
  {
    match Find(ts, token)
    case None => ts
    case Some(i) =>
      RemoveAtMembers(ts, i);
      RemoveAt(ts, i)
  }

  /** Removing position `i` keeps every record whose token differs from the removed one. */
  lemma RemoveAtMembers(ts: seq<RefreshToken>, i: nat)
    requires i < |ts|
    ensures forall t :: t in RemoveAt(ts, i) ==> t in ts
    ensures forall t :: t in ts && t.token != ts[i].token ==> t in RemoveAt(ts, i)
    ensures TableValid(ts) ==> Find(RemoveAt(ts, i), ts[i].token).None?
  {
  }

  /**
   * `RefreshToken.create({token, user, expiresAt})` as the schema is written:
   * an empty token or a missing user fails a `required` validator, a token
   * already stored fails the unique index, any other record is stored, and
   * `expiresAt` is dropped.
   */
  function Create(ts: seq<RefreshToken>, token: string, user: string, expiresAt: Option<int>, now: int)
    : (r: Result<seq<RefreshToken>, StoreError>)
    ensures token == "" ==> r == Failure(TokenRequired)
    ensures token != "" && user == "" ==> r == Failure(UserRequired)
    ensures token != "" && user != "" && Find(ts, token).Some? ==> r == Failure(DuplicateToken)
    ensures r.Success? <==> token != "" && user != "" && Find(ts, token).None?
    ensures r.Success? ==> r.value == ts + [RefreshToken(token, user, now, now, None)]
  {
    if token == "" then Failure(TokenRequired)
    else if user == "" then Failure(UserRequired)
    else if Find(ts, token).Some? then Failure(DuplicateToken)
    else Success(ts + [RefreshToken(token, user, now, now, None)])
  }

  /** The create the TTL index at line 21 was meant for: the expiry is kept. */
  function IntendedCreate(ts: seq<RefreshToken>, token: string, user: string, expiresAt: Option<int>, now: int)
    : (r: Result<seq<RefreshToken>, StoreError>)
    ensures r.Success? <==> Create(ts, token, user, expiresAt, now).Success?
    ensures r.Success? ==> r.value == ts + [RefreshToken(token, user, now, now, expiresAt)]
  {
    if token == "" then Failure(TokenRequired)
    else if user == "" then Failure(UserRequired)
    else if Find(ts, token).Some? then Failure(DuplicateToken)
    else Success(ts + [RefreshToken(token, user, now, now, expiresAt)])
  }

  lemma CreateKeepsTable(ts: seq<RefreshToken>, token: string, user: string, expiresAt: Option<int>, now: int)
    requires TableValid(ts) && NoExpiry(ts)
    ensures Create(ts, token, user, expiresAt, now).Success? ==>
              TableValid(Create(ts, token, user, expiresAt, now).value) && NoExpiry(Create(ts, token, user, expiresAt, now).value)
  {
  }

  lemma IntendedCreateKeepsTable(ts: seq<RefreshToken>, token: string, user: string, expiresAt: Option<int>, now: int)
    requires TableValid(ts)
    ensures IntendedCreate(ts, token, user, expiresAt, now).Success? ==>
              TableValid(IntendedCreate(ts, token, user, expiresAt, now).value)
  {
  }

  lemma RemoveAtKeepsTable(ts: seq<RefreshToken>, i: nat)
    requires TableValid(ts) && i < |ts|
    ensures TableValid(RemoveAt(ts, i))
    ensures NoExpiry(ts) ==> NoExpiry(RemoveAt(ts, i))
    ensures Find(RemoveAt(ts, i), ts[i].token).None?
  {
    var r := RemoveAt(ts, i);
    forall a, b | 0 <= a < b < |r| ensures r[a].token != r[b].token {
      assert r[a] == ts[if a < i then a else a + 1] && r[b] == ts[if b < i then b else b + 1];
    }
  }

  /** Once a token is deleted it is found no more: the record was the only one holding it. */
  lemma DeleteForgets(ts: seq<RefreshToken>, token: string)
    requires TableValid(ts)
    ensures TableValid(Delete(ts, token)) && Find(Delete(ts, token), token).None?
  {
    if Find(ts, token).Some? {
      RemoveAtKeepsTable(ts, Find(ts, token).value);
    }
  }

  /** As written, no stored token ever expires, however late `now` is. */
  lemma StoredTokensNeverExpire(ts: seq<RefreshToken>, token: string, now: int)
    requires NoExpiry(ts) && Find(ts, token).Some?
    ensures !Expired(ts[Find(ts, token).value], now)
  {
  }

  /** With the expiry kept, a token presented after its expiry is recognised as expired. */
  lemma IntendedTokensExpire(ts: seq<RefreshToken>, token: string, user: string, expiresAt: int, now: int, later: int)
    requires IntendedCreate(ts, token, user, Some(expiresAt), now).Success? && expiresAt < later
    ensures var ts' := IntendedCreate(ts, token, user, Some(expiresAt), now).value;
            Find(ts', token).Some? && Expired(ts'[Find(ts', token).value], later)
  {
    var ts' := IntendedCreate(ts, token, user, Some(expiresAt), now).value;
    assert Find(ts, token).None?;
    FindAppended(ts, ts'[|ts|]);
  }

  lemma {:induction false} FindAppended(ts: seq<RefreshToken>, t: RefreshToken)
    requires Find(ts, t.token).None?
    ensures Find(ts + [t], t.token) == Some(|ts|)
  {
    if ts != [] {
      assert (ts + [t])[1..] == ts[1..] + [t];
      assert ts[0].token != t.token;
      FindAppended(ts[1..], t);
    }
  }
}
