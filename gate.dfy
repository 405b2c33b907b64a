/** Request gating: the maintenance switch (middleware/maintenanceMiddleware.js),
    JWT protection and the role guards (middleware/authMiddleware.js), and
    API-key authentication (middleware/apiKeyAuthMiddleware.js). */
module Gate {
  import opened Common
  import opened Text
  import opened Models
  import opened Store

  /** What a middleware decides: let the request through (for an
      authenticated user, with who it is), or answer it with a status and a
      message. */
  datatype Decision = Pass | PassAs(user: Id) | Deny(status: nat, message: string)

  // ---------------------------------------------------------------------
  // checkMaintenanceMode

  const HealthPath := "/api/system/health"
  const AdminPrefix := "/api/admin"
  const MaintenanceMessage := "Service is temporarily unavailable due to maintenance."

  function CheckMaintenance(maintenance: bool, path: string): (d: Decision)
    ensures d.Pass? || d == Deny(503, MaintenanceMessage)
    ensures !maintenance ==> d.Pass?
    ensures path == HealthPath ==> d.Pass?
    ensures maintenance && path != HealthPath ==> (d.Pass? <==> StartsWith(path, AdminPrefix))
  {
    if maintenance && path != HealthPath then
      if StartsWith(path, AdminPrefix) then Pass else Deny(503, MaintenanceMessage)
    else Pass
  }

  /** The bypass reads the path only: any path under /api/admin passes,
      whoever sends it, including paths that merely share the prefix. */
  lemma AdminBypassIsByPrefix(rest: string)
    ensures CheckMaintenance(true, AdminPrefix + rest).Pass?
  {
    assert (AdminPrefix + rest)[..|AdminPrefix|] == AdminPrefix;
  }

  // ---------------------------------------------------------------------
  // protect

  /** `protect`. `verify` stands for `jwt.verify` with the server secret
      followed by reading the user id: `None` when the token is malformed,
      badly signed or expired (it throws). A header "Bearer" without a
      second field hands `jwt.verify` an undefined token, which throws as
      well. */
  function Protect(users: map<Id, User>, header: Option<string>, verify: string -> Option<Id>): (d: Decision)
    ensures header.None? || !StartsWith(header.value, "Bearer") ==> d == Deny(401, "Not authorized, no token")
    ensures d.PassAs? <==>
      && header.Some? && StartsWith(header.value, "Bearer") && SecondField(header.value).Some?
      && verify(SecondField(header.value).value).Some? && verify(SecondField(header.value).value).value in users
    ensures d.PassAs? ==> d.user == verify(SecondField(header.value).value).value
    ensures (header.Some? && StartsWith(header.value, "Bearer") &&
             (SecondField(header.value).None? || verify(SecondField(header.value).value).None?))
      ==> d == Deny(401, "Not authorized, token failed")
    ensures (header.Some? && StartsWith(header.value, "Bearer") && SecondField(header.value).Some? &&
             verify(SecondField(header.value).value).Some? && verify(SecondField(header.value).value).value !in users)
      ==> d == Deny(401, "Not authorized, user not found")
    ensures !d.Pass?
  {
    if header.None? || !StartsWith(header.value, "Bearer") then Deny(401, "Not authorized, no token")
    else
      var token := SecondField(header.value);
      if token.None? then Deny(401, "Not authorized, token failed")
      else
        var id := verify(token.value);
        if id.None? then Deny(401, "Not authorized, token failed")
        else if id.value !in users then Deny(401, "Not authorized, user not found")
        else PassAs(id.value)
  }

  /** A well-formed "Bearer <token>" header authenticates exactly the user
      the token names, when that user exists. */
  lemma BearerTokenAuthenticates(users: map<Id, User>, token: string, verify: string -> Option<Id>)
    requires ' ' !in token && verify(token).Some? && verify(token).value in users
    ensures Protect(users, Some("Bearer " + token), verify) == PassAs(verify(token).value)
  {
    SecondFieldOfPair("Bearer", token);
    assert ("Bearer " + token)[..6] == "Bearer";
    assert "Bearer" + " " + token == "Bearer " + token;
  }

  /** What a signed token is good for: a full session, or only the second
      step of a two-factor login. */
  datatype Purpose = Session | SecondStep

  /** The payload of a signed token. */
  datatype Claim = Claim(id: Id, purpose: Purpose)

  /** Reads the user id of a token only when the token was issued for the
      given purpose; any other token counts as a failed one. */
  function ForPurpose(verify: string -> Option<Claim>, purpose: Purpose): string -> Option<Id> {
    t => if verify(t).Some? && verify(t).value.purpose == purpose then Some(verify(t).value.id) else None
  }

  /** `protect` as a two-factor login needs it: ordinary routes accept
      session tokens only, /2fa/verify-login accepts second-step tokens
      only. */
  function ProtectFor(users: map<Id, User>, header: Option<string>, verify: string -> Option<Claim>, purpose: Purpose): (d: Decision)
    ensures d.PassAs? <==>
      && header.Some? && StartsWith(header.value, "Bearer") && SecondField(header.value).Some?
      && verify(SecondField(header.value).value).Some?
      && verify(SecondField(header.value).value).value.purpose == purpose
      && verify(SecondField(header.value).value).value.id in users
    ensures d.PassAs? ==> d.user == verify(SecondField(header.value).value).value.id
    ensures !d.PassAs? ==> d.Deny? && d.status == 401
  {
    Protect(users, header, ForPurpose(verify, purpose))
  }

  /** A well-formed "Bearer <token>" header is accepted for a purpose
      exactly when the token was issued for that purpose. */
  lemma PurposeDecides(users: map<Id, User>, t: string, verify: string -> Option<Claim>, purpose: Purpose)
    requires ' ' !in t && verify(t).Some? && verify(t).value.id in users
    ensures ProtectFor(users, Some("Bearer " + t), verify, purpose) ==
      if verify(t).value.purpose == purpose then PassAs(verify(t).value.id) else Deny(401, "Not authorized, token failed")
  {
    var header := "Bearer " + t;
    SecondFieldOfPair("Bearer", t);
    assert header[..6] == "Bearer";
    assert "Bearer" + " " + t == header;
    assert SecondField(header) == Some(t);
  }

  // ---------------------------------------------------------------------
  // admin, creator

  function AdminGuard(user: Option<User>): (d: Decision)
    ensures d.Pass? <==> user.Some? && user.value.role == "admin"
    ensures !d.Pass? ==> d == Deny(403, "Forbidden: Admin access required")
  {
    if user.Some? && user.value.role == "admin" then Pass else Deny(403, "Forbidden: Admin access required")
  }

  function CreatorGuard(user: Option<User>): (d: Decision)
    ensures d.Pass? <==> user.Some? && (user.value.role == "creator" || user.value.role == "admin")
    ensures !d.Pass? ==> d == Deny(403, "Forbidden: Creator access required")
  {
    if user.Some? && (user.value.role == "creator" || user.value.role == "admin") then Pass
    else Deny(403, "Forbidden: Creator access required")
  }

  /** Every request the admin guard lets through, the creator guard lets
      through too. */
  lemma AdminPassesCreator(user: Option<User>)
    requires AdminGuard(user).Pass?
    ensures CreatorGuard(user).Pass?
  {
  }

  // ---------------------------------------------------------------------
  // apiKeyAuth

  /** The key of an `Authorization` header: the second field of a "Bearer"
      header, otherwise none. */
  function ProvidedKey(header: Option<string>): (r: Option<string>)
    ensures header.None? || !StartsWith(header.value, "Bearer") ==> r.None?
    ensures header.Some? && StartsWith(header.value, "Bearer") ==> r == SecondField(header.value)
  {
    if header.Some? && StartsWith(header.value, "Bearer") then SecondField(header.value) else None
  }

  function FindKeyByHash(keys: map<Id, ApiKey>, hash: string): (r: Option<Id>)
    ensures r.None? <==> forall k :: k in keys ==> keys[k].keyHash != hash
    ensures r.Some? ==> r.value in keys && keys[r.value].keyHash == hash
  {
    First(keys, (k: ApiKey) => k.keyHash == hash)
  }

  /** `apiKeyAuth`: 401 without a key, 401 for an unknown hash, 403 for a
      disabled key (before the owner is looked up), 401 when the owner no
      longer exists; otherwise the request continues as the owner and the
      key's usage count grows by one with `lastUsedAt` set. `sha256` stands
      for the hex SHA-256 digest. */
  function ApiKeyAuthOutcome(db: Db, header: Option<string>, sha256: string -> string, now: int): (o: (Decision, Db))
    ensures !Truthy(ProvidedKey(header)) ==> o == (Deny(401, "API Key is required."), db)
    ensures !o.0.PassAs? ==> o.1 == db
    ensures Truthy(ProvidedKey(header)) && FindKeyByHash(db.apiKeys, sha256(ProvidedKey(header).value)).None? ==>
      o.0 == Deny(401, "Invalid API Key.")
    ensures o.0.PassAs? <==>
      && Truthy(ProvidedKey(header))
      && var found := FindKeyByHash(db.apiKeys, sha256(ProvidedKey(header).value));
         found.Some? && db.apiKeys[found.value].isActive && db.apiKeys[found.value].owner in db.users
    ensures o.0.PassAs? ==>
      var id := FindKeyByHash(db.apiKeys, sha256(ProvidedKey(header).value)).value;
      var k := db.apiKeys[id];
      && o.0.user == k.owner
      && o.1 == db.(apiKeys := db.apiKeys[id := k.(usageCount := k.usageCount + 1, lastUsedAt := Some(now))])
    ensures o.0.Deny? && o.0.status == 403 ==> o.0.message == "API Key is disabled."
    ensures (Truthy(ProvidedKey(header)) &&
             var found := FindKeyByHash(db.apiKeys, sha256(ProvidedKey(header).value));
             found.Some? && db.apiKeys[found.value].isActive && db.apiKeys[found.value].owner !in db.users)
      ==> o.0 == Deny(401, "Invalid API Key owner.")
  {
    var key := ProvidedKey(header);
    if !Truthy(key) then (Deny(401, "API Key is required."), db)
    else
      var found := FindKeyByHash(db.apiKeys, sha256(key.value));
      if found.None? then (Deny(401, "Invalid API Key."), db)
      else
        var k := db.apiKeys[found.value];
        if !k.isActive then (Deny(403, "API Key is disabled."), db)
        else if k.owner !in db.users then (Deny(401, "Invalid API Key owner."), db)
        else (PassAs(k.owner), db.(apiKeys := db.apiKeys[found.value := k.(usageCount := k.usageCount + 1, lastUsedAt := Some(now))]))
  }

  /** A disabled key is refused even when its owner no longer exists: the
      activity check comes first. */
  lemma DisabledBeforeOwner(db: Db, header: Option<string>, sha256: string -> string, now: int)
    requires Truthy(ProvidedKey(header))
    requires var found := FindKeyByHash(db.apiKeys, sha256(ProvidedKey(header).value));
      found.Some? && !db.apiKeys[found.value].isActive && db.apiKeys[found.value].owner !in db.users
    ensures ApiKeyAuthOutcome(db, header, sha256, now).0 == Deny(403, "API Key is disabled.")
  {
  }

  /** A successful authentication changes nothing but the key's usage
      statistics: the hash, prefix, owner and activity of every key stay. */
  lemma AuthKeepsKeys(db: Db, header: Option<string>, sha256: string -> string, now: int)
    ensures var db' := ApiKeyAuthOutcome(db, header, sha256, now).1;
      db'.apiKeys.Keys == db.apiKeys.Keys &&
      forall k :: k in db.apiKeys ==>
        db'.apiKeys[k] == db.apiKeys[k].(usageCount := db'.apiKeys[k].usageCount, lastUsedAt := db'.apiKeys[k].lastUsedAt)
  {
  }

  method ApiKeyAuth(srv: Server, header: Option<string>, sha256: string -> string, now: int) returns (d: Decision)
    modifies srv`db
    ensures var o := ApiKeyAuthOutcome(old(srv.db), header, sha256, now); d == o.0 && srv.db == o.1
  {
    var key := ProvidedKey(header);
    if !Truthy(key) {
      return Deny(401, "API Key is required.");
    }
    var found := FindKeyByHash(srv.db.apiKeys, sha256(key.value));
    if found.None? {
      return Deny(401, "Invalid API Key.");
    }
    var apiKey := srv.db.apiKeys[found.value];
    if !apiKey.isActive {
      return Deny(403, "API Key is disabled.");
    }
    if apiKey.owner !in srv.db.users {
      return Deny(401, "Invalid API Key owner.");
    }
    apiKey := apiKey.(usageCount := apiKey.usageCount + 1);
    apiKey := apiKey.(lastUsedAt := Some(now));
    srv.db := srv.db.(apiKeys := srv.db.apiKeys[found.value := apiKey]);
    d := PassAs(apiKey.owner);
  }
}
