/** API-key management of controllers/developerController.js: issuing a key
    with a unique prefix, listing a user's keys and revoking a key. */
module Developer {
  import opened Common
  import opened Text
  import opened Models
  import opened Store
  import opened Http
  import Gate

  const KeyScheme := "whisspra_sk_"
  const PrefixLength: nat := 19

  /** One draw of `crypto.randomBytes(24)`. */
  predicate IsDraw(bytes: seq<nat>) {
    |bytes| == 24 && forall i :: 0 <= i < |bytes| ==> bytes[i] < 256
  }

  /** The key built from a draw: the scheme followed by 48 hex digits. */
  function KeyOf(bytes: seq<nat>): string
    requires IsDraw(bytes)
  {
    KeyScheme + Hex(bytes)
  }

  /** A key is 60 characters: the scheme and 48 hex digits. */
  lemma KeyShape(bytes: seq<nat>)
    requires IsDraw(bytes)
    ensures var key := KeyOf(bytes);
      |key| == 60 && StartsWith(key, KeyScheme) && IsHex(key[|KeyScheme|..])
  {
    var key := KeyOf(bytes);
    assert key[|KeyScheme|..] == Hex(bytes);
    assert key[..|KeyScheme|] == KeyScheme;
  }

  /** `apiKey.substring(0, 19)`: the scheme and the first seven hex digits. */
  function PrefixOf(key: string): (p: string)
    ensures |key| >= PrefixLength ==> |p| == PrefixLength
    ensures StartsWith(key, p)
  {
    Take(key, PrefixLength)
  }

  function FindKeyByPrefix(keys: map<Id, ApiKey>, prefix: string): (r: Option<Id>)
    ensures r.None? <==> forall k :: k in keys ==> keys[k].keyPrefix != prefix
    ensures r.Some? ==> r.value in keys && keys[r.value].keyPrefix == prefix
  {
    First(keys, (k: ApiKey) => k.keyPrefix == prefix)
  }

  /** The prefixes of the stored keys. */
  function Prefixes(keys: map<Id, ApiKey>): set<string> {
    set k | k in keys :: keys[k].keyPrefix
  }

  /** Whether draw i gives a prefix no stored key has. */
  predicate FreshDraw(keys: map<Id, ApiKey>, draws: seq<seq<nat>>, i: nat)
    requires i < |draws| && IsDraw(draws[i])
  {
    PrefixOf(KeyOf(draws[i])) !in Prefixes(keys)
  }

  predicate AllDraws(draws: seq<seq<nat>>) {
    forall i :: 0 <= i < |draws| ==> IsDraw(draws[i])
  }

  /** The random source: well-formed draws, one of which eventually gives an
      unused prefix (the handler retries for as long as it takes). */
  predicate Supply(keys: map<Id, ApiKey>, draws: seq<seq<nat>>, from: nat) {
    AllDraws(draws) && exists i :: from <= i < |draws| && FreshDraw(keys, draws, i)
  }

  /** The draw the retry loop settles on: the first one from `from` on whose
      prefix is unused. */
  function FirstFresh(keys: map<Id, ApiKey>, draws: seq<seq<nat>>, from: nat): (i: nat)
    requires Supply(keys, draws, from)
    ensures from <= i < |draws| && FreshDraw(keys, draws, i)
    ensures forall j :: from <= j < i ==> !FreshDraw(keys, draws, j)
    decreases |draws| - from
  {
    if FreshDraw(keys, draws, from) then from
    else
      assert Supply(keys, draws, from + 1) by {
        var j :| from <= j < |draws| && FreshDraw(keys, draws, j);
        assert j != from;
      }
      FirstFresh(keys, draws, from + 1)
  }

  /** No two stored keys share a prefix. */
  predicate UniquePrefixes(keys: map<Id, ApiKey>) {
    forall a, b :: a in keys && b in keys && a != b ==> keys[a].keyPrefix != keys[b].keyPrefix
  }

  /** No two stored keys share a hash (the unique index on `keyHash`). */
  predicate UniqueHashes(keys: map<Id, ApiKey>) {
    forall a, b :: a in keys && b in keys && a != b ==> keys[a].keyHash != keys[b].keyHash
  }

  /** `createApiKey`: the key of the first draw with an unused prefix is
      stored as its SHA-256 hash and its prefix, never in the clear, and is
      returned once in the response. A hash already stored violates the
      unique index and the create throws. */
  function CreateApiKeyOutcome(db: Db, me: Id, draws: seq<seq<nat>>, sha256: string -> string, now: int): (o: Outcome<string>)
    requires Supply(db.apiKeys, draws, 0)
    ensures o.events == []
    ensures var key := KeyOf(draws[FirstFresh(db.apiKeys, draws, 0)]);
      var hashTaken := exists k :: k in db.apiKeys && db.apiKeys[k].keyHash == sha256(key);
      && (hashTaken ==> o.reply.Thrown? && o.db == db)
      && (!hashTaken ==>
            var id := NextId(db.apiKeys);
            && o.reply == Ok(201, key)
            && o.db == db.(apiKeys := db.apiKeys[id := NewApiKey(sha256(key), PrefixOf(key), me, now)]))
  {
    var key := KeyOf(draws[FirstFresh(db.apiKeys, draws, 0)]);
    if exists k :: k in db.apiKeys && db.apiKeys[k].keyHash == sha256(key) then Answer(db, Thrown)
    else
      var id := NextId(db.apiKeys);
      Outcome(Ok(201, key), db.(apiKeys := db.apiKeys[id := NewApiKey(sha256(key), PrefixOf(key), me, now)]), [])
  }

  /** Issuing a key keeps prefixes and hashes unique. */
  lemma CreateKeepsKeysUnique(db: Db, me: Id, draws: seq<seq<nat>>, sha256: string -> string, now: int)
    requires Supply(db.apiKeys, draws, 0)
    requires UniquePrefixes(db.apiKeys) && UniqueHashes(db.apiKeys)
    ensures var o := CreateApiKeyOutcome(db, me, draws, sha256, now);
      UniquePrefixes(o.db.apiKeys) && UniqueHashes(o.db.apiKeys)
  {
    var o := CreateApiKeyOutcome(db, me, draws, sha256, now);
    var key := KeyOf(draws[FirstFresh(db.apiKeys, draws, 0)]);
    if o.db != db {
      var id := NextId(db.apiKeys);
      var keys := o.db.apiKeys;
      assert keys == db.apiKeys[id := NewApiKey(sha256(key), PrefixOf(key), me, now)];
      forall a, b | a in keys && b in keys && a != b
        ensures keys[a].keyPrefix != keys[b].keyPrefix && keys[a].keyHash != keys[b].keyHash
      {
        if a == id {
          assert db.apiKeys[b].keyPrefix in Prefixes(db.apiKeys);
        } else if b == id {
          assert db.apiKeys[a].keyPrefix in Prefixes(db.apiKeys);
        }
      }
    }
  }

  /** The key handed back is "whisspra_sk_" and 48 hex digits, and the
      stored prefix is its first 19 characters. */
  lemma CreatedKeyShape(db: Db, me: Id, draws: seq<seq<nat>>, sha256: string -> string, now: int)
    requires Supply(db.apiKeys, draws, 0)
    ensures var o := CreateApiKeyOutcome(db, me, draws, sha256, now);
      o.reply.Ok? ==>
        (&& |o.reply.body| == 60
         && StartsWith(o.reply.body, KeyScheme)
         && IsHex(o.reply.body[|KeyScheme|..])
         && o.db.apiKeys[NextId(db.apiKeys)].keyPrefix == o.reply.body[..PrefixLength])
  {
    KeyShape(draws[FirstFresh(db.apiKeys, draws, 0)]);
  }

  /** A draw whose prefix is taken is skipped: the retry loop settles on
      the same draw from the next one on. */
  lemma PrefixTaken(keys: map<Id, ApiKey>, draws: seq<seq<nat>>, i: nat)
    requires Supply(keys, draws, i) && i < |draws|
    requires FindKeyByPrefix(keys, PrefixOf(KeyOf(draws[i]))).Some?
    ensures Supply(keys, draws, i + 1) && FirstFresh(keys, draws, i + 1) == FirstFresh(keys, draws, i)
  {
    var id := FindKeyByPrefix(keys, PrefixOf(KeyOf(draws[i]))).value;
    assert keys[id].keyPrefix in Prefixes(keys);
    assert !FreshDraw(keys, draws, i);
  }

  /** A draw whose prefix is free is the one the retry loop settles on. */
  lemma PrefixFree(keys: map<Id, ApiKey>, draws: seq<seq<nat>>, i: nat)
    requires Supply(keys, draws, i) && i < |draws|
    requires FindKeyByPrefix(keys, PrefixOf(KeyOf(draws[i]))).None?
    ensures FirstFresh(keys, draws, i) == i
  {
    assert FreshDraw(keys, draws, i);
  }

  method CreateApiKey(srv: Server, me: Id, draws: seq<seq<nat>>, sha256: string -> string, now: int)
    returns (reply: Reply<string>)
    requires Supply(srv.db.apiKeys, draws, 0)
    modifies srv`db
    ensures var o := CreateApiKeyOutcome(old(srv.db), me, draws, sha256, now); srv.db == o.db && reply == o.reply
  {
    var key := DrawFreshKey(srv.db.apiKeys, draws);
    var keyHash := sha256(key);
    if exists k :: k in srv.db.apiKeys && srv.db.apiKeys[k].keyHash == keyHash {
      return Thrown;
    }
    var id := NextId(srv.db.apiKeys);
    srv.db := srv.db.(apiKeys := srv.db.apiKeys[id := NewApiKey(keyHash, PrefixOf(key), me, now)]);
    reply := Ok(201, key);
  }

  /** The retry loop of `createApiKey`: draws keys until one has a prefix
      no stored key has. */
  method DrawFreshKey(keys: map<Id, ApiKey>, draws: seq<seq<nat>>) returns (key: string)
    requires Supply(keys, draws, 0)
    ensures key == KeyOf(draws[FirstFresh(keys, draws, 0)])
    ensures PrefixOf(key) !in Prefixes(keys)
  {
    var i := 0;
    key := KeyOf(draws[i]);
    var prefix := PrefixOf(key);
    while FindKeyByPrefix(keys, prefix).Some?
      invariant 0 <= i < |draws| && Supply(keys, draws, i)
      invariant key == KeyOf(draws[i]) && prefix == PrefixOf(key)
      invariant FirstFresh(keys, draws, i) == FirstFresh(keys, draws, 0)
      decreases |draws| - i
    {
      PrefixTaken(keys, draws, i);
      i := i + 1;
      key := KeyOf(draws[i]);
      prefix := PrefixOf(key);
    }
    PrefixFree(keys, draws, i);
  }


  // ---------------------------------------------------------------------
  // getApiKeys

  /** A key as listed: every field but the hash. */
  datatype KeyView = KeyView(id: Id, keyPrefix: string, owner: Id, usageCount: nat, lastUsedAt: Option<int>,
                             isActive: bool, createdAt: int)

  function ViewOf(id: Id, k: ApiKey): KeyView {
    KeyView(id, k.keyPrefix, k.owner, k.usageCount, k.lastUsedAt, k.isActive, k.createdAt)
  }

  function OwnedBy(me: Id): ApiKey -> bool {
    (k: ApiKey) => k.owner == me
  }

  /** The caller's key ids, newest first. */
  function OwnKeyIds(db: Db, me: Id): (r: seq<Id>)
    ensures Decreasing(r)
    ensures forall k :: k in r <==> k in db.apiKeys && db.apiKeys[k].owner == me
  {
    var ids := IdsWhere(db.apiKeys, OwnedBy(me));
    LatestDecreasing(ids, |ids|);
    LatestAll(ids);
    Latest(ids, |ids|)
  }

  function Views(keys: map<Id, ApiKey>, ids: seq<Id>): (r: seq<KeyView>)
    requires forall i :: 0 <= i < |ids| ==> ids[i] in keys
    ensures |r| == |ids|
    ensures forall i :: 0 <= i < |r| ==> r[i] == ViewOf(ids[i], keys[ids[i]])
  {
    if ids == [] then [] else [ViewOf(ids[0], keys[ids[0]])] + Views(keys, ids[1..])
  }

  /** `getApiKeys`: the caller's keys only, newest first, without hashes. */
  function GetApiKeys(db: Db, me: Id): (r: seq<KeyView>)
    ensures forall i :: 0 <= i < |r| ==> r[i].id in db.apiKeys && r[i].owner == me && r[i] == ViewOf(r[i].id, db.apiKeys[r[i].id])
    ensures forall i, j :: 0 <= i < j < |r| ==> r[i].id > r[j].id
  {
    var ids := OwnKeyIds(db, me);
    var r := Views(db.apiKeys, ids);
    forall i | 0 <= i < |r|
      ensures r[i].id in db.apiKeys && r[i].owner == me && r[i] == ViewOf(r[i].id, db.apiKeys[r[i].id])
    {
      assert r[i].id == ids[i] && ids[i] in ids;
    }
    forall i, j | 0 <= i < j < |r|
      ensures r[i].id > r[j].id
    {
      assert r[i].id == ids[i] && r[j].id == ids[j];
    }
    r
  }

  /** Every key of the caller is listed. */
  lemma OwnKeysListed(db: Db, me: Id, k: Id)
    requires k in db.apiKeys && db.apiKeys[k].owner == me
    ensures exists i :: 0 <= i < |GetApiKeys(db, me)| && GetApiKeys(db, me)[i].id == k
  {
    var ids := OwnKeyIds(db, me);
    assert k in ids;
    var i :| 0 <= i < |ids| && ids[i] == k;
    var r := Views(db.apiKeys, ids);
    assert r[i].id == k;
    assert GetApiKeys(db, me) == r;
  }

  // ---------------------------------------------------------------------
  // revokeApiKey

  /** `revokeApiKey`: 404 for an unknown key; otherwise the key is disabled
      and nothing else changes. Ownership is not checked. */
  function RevokeOutcome(db: Db, keyId: Id): (o: Outcome<string>)
    ensures o.events == []
    ensures keyId !in db.apiKeys ==> o.reply == Fail(404, "API Key not found.") && o.db == db
    ensures keyId in db.apiKeys ==>
      && o.reply == Ok(200, "API Key successfully revoked.")
      && o.db == db.(apiKeys := db.apiKeys[keyId := db.apiKeys[keyId].(isActive := false)])
  {
    if keyId !in db.apiKeys then Answer(db, Fail(404, "API Key not found."))
    else
      Outcome(Ok(200, "API Key successfully revoked."),
              db.(apiKeys := db.apiKeys[keyId := db.apiKeys[keyId].(isActive := false)]), [])
  }

  /** Revoking twice leaves the same store as revoking once. */
  lemma RevokeIdempotent(db: Db, keyId: Id)
    ensures RevokeOutcome(RevokeOutcome(db, keyId).db, keyId).db == RevokeOutcome(db, keyId).db
  {
  }

  /** A revoked key is refused with 403 by the API-key middleware, whoever
      owns it. */
  lemma RevokedKeyIsRefused(db: Db, keyId: Id, header: Option<string>, sha256: string -> string, now: int)
    requires keyId in db.apiKeys && UniqueHashes(db.apiKeys)
    requires Truthy(Gate.ProvidedKey(header)) && sha256(Gate.ProvidedKey(header).value) == db.apiKeys[keyId].keyHash
    ensures Gate.ApiKeyAuthOutcome(RevokeOutcome(db, keyId).db, header, sha256, now).0 == Gate.Deny(403, "API Key is disabled.")
  {
    var db' := RevokeOutcome(db, keyId).db;
    var found := Gate.FindKeyByHash(db'.apiKeys, sha256(Gate.ProvidedKey(header).value));
    assert db'.apiKeys[keyId].keyHash == db.apiKeys[keyId].keyHash;
    assert found.Some?;
  }

  method RevokeApiKey(srv: Server, keyId: Id) returns (reply: Reply<string>)
    modifies srv`db
    ensures var o := RevokeOutcome(old(srv.db), keyId); srv.db == o.db && reply == o.reply
  {
    if keyId !in srv.db.apiKeys {
      return Fail(404, "API Key not found.");
    }
    var key := srv.db.apiKeys[keyId];
    key := key.(isActive := false);
    srv.db := srv.db.(apiKeys := srv.db.apiKeys[keyId := key]);
    reply := Ok(200, "API Key successfully revoked.");
  }
}
