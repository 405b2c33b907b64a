/** Account creation, sign-in and two-factor authentication,
    controllers/authController.js. Token signing, bcrypt and TOTP checking
    are foreign code and enter as function parameters. */
module Auth {
  import opened Common
  import opened Text
  import opened Models
  import opened Store
  import opened Http
  import Gate

  /** `generateToken(id)`: a signed session token for a user id. */
  type Signer = Id -> string

  /** `speakeasy.totp.verify` over the stored base32 secret and the entered code. */
  type Totp = (Option<string>, Option<string>) -> bool

  // ---------------------------------------------------------------------
  // handleAuthSuccess

  datatype AuthBody = AuthBody(token: string, user: User)

  /** `handleAuthSuccess(res, user)`: a token for the user and the user record
      without its password hash and 2FA secret. It always writes status 200,
      overriding the 201 that `registerUser` and `createAnonymousUser` set
      before calling it. */
  function AuthSuccess(id: Id, u: User, sign: Signer): (r: Reply<AuthBody>)
    ensures r.Ok? && r.status == 200
    ensures r.body.token == sign(id)
    ensures r.body.user.password.None? && r.body.user.twoFactorSecret.None?
    ensures r.body.user.(password := u.password, twoFactorSecret := u.twoFactorSecret) == u
  {
    Ok(200, AuthBody(sign(id), Redacted(u)))
  }

  // ---------------------------------------------------------------------
  // Email lookup

  /** The unique (sparse) index on `email`: no two users share an address. */
  predicate UniqueEmails(users: map<Id, User>) {
    forall a, b :: a in users && b in users && a != b && users[a].email.Some? ==> users[a].email != users[b].email
  }

  predicate HasEmail(u: User, email: string) {
    u.email == Some(email)
  }

  function EmailIs(email: string): User -> bool {
    (u: User) => HasEmail(u, email)
  }

  /** `User.findOne({ email })`. */
  function FindByEmail(users: map<Id, User>, email: string): (r: Option<Id>)
    ensures r.None? <==> forall k :: k in users ==> users[k].email != Some(email)
    ensures r.Some? ==> r.value in users && users[r.value].email == Some(email)
    ensures r.Some? ==> forall k :: k in users && users[k].email == Some(email) ==> r.value <= k
  {
    First(users, EmailIs(email))
  }

  /** With unique addresses the lookup finds the one holder of the address. */
  lemma FindByEmailUnique(users: map<Id, User>, email: string, id: Id)
    requires UniqueEmails(users)
    requires id in users && users[id].email == Some(email)
    ensures FindByEmail(users, email) == Some(id)
  {
    var r := FindByEmail(users, email);
    assert r.Some?;
    var k := r.value;
    assert k in users && users[k].email == users[id].email;
  }

  // ---------------------------------------------------------------------
  // registerUser

  const MissingFields: string := "Please provide all fields"
  const UserExists: string := "User already exists"

  /** `name.charAt(0).toUpperCase()` for a non-empty name. */
  function Initial(name: string): (r: string)
    requires name != []
    ensures |r| == 1 && r[0] == UpperChar(name[0])
  {
    [UpperChar(name[0])]
  }

  /** The stored record of a new account: the schema defaults, the initial as
      avatar and the password replaced by its hash by the pre-save hook. */
  function Registered(name: string, email: string, password: string, hash: string -> string): (u: User)
    requires name != [] && password != []
    ensures u.name == name && u.email == Some(email) && u.password == Some(hash(password))
    ensures u.avatar == Initial(name) && !u.isAnonymous && u.role == "user"
    ensures !u.isTwoFactorEnabled && u.twoFactorSecret.None?
  {
    PreSave(NewUser(name, Some(email), Some(password), Some(Initial(name)), false), true, hash)
  }

  /** `registerUser`: all three fields are required and the address must be
      free; the new account is stored at a fresh id and signed in. */
  function RegisterOutcome(db: Db, name: Option<string>, email: Option<string>, password: Option<string>,
                           hash: string -> string, sign: Signer): (o: Outcome<AuthBody>)
    ensures !(Truthy(name) && Truthy(email) && Truthy(password)) ==> o == Outcome(Fail(400, MissingFields), db, [])
    ensures Truthy(name) && Truthy(email) && Truthy(password) && FindByEmail(db.users, email.value).Some? ==>
      o == Outcome(Fail(400, UserExists), db, [])
    ensures o.reply.Ok? <==> Truthy(name) && Truthy(email) && Truthy(password) && FindByEmail(db.users, email.value).None?
    ensures o.reply.Ok? ==>
      var id := NextId(db.users);
      && id !in db.users
      && o.db == db.(users := db.users[id := Registered(name.value, email.value, password.value, hash)])
      && o.reply == AuthSuccess(id, Registered(name.value, email.value, password.value, hash), sign)
    ensures o.events == []
  {
    if !Truthy(name) || !Truthy(email) || !Truthy(password) then Outcome(Fail(400, MissingFields), db, [])
    else if FindByEmail(db.users, email.value).Some? then Outcome(Fail(400, UserExists), db, [])
    else
      var u := Registered(name.value, email.value, password.value, hash);
      var id := NextId(db.users);
      Outcome(AuthSuccess(id, u, sign), db.(users := db.users[id := u]), [])
  }

  method RegisterUser(srv: Server, name: Option<string>, email: Option<string>, password: Option<string>,
                      hash: string -> string, sign: Signer) returns (reply: Reply<AuthBody>)
    modifies srv`db
    ensures var o := RegisterOutcome(old(srv.db), name, email, password, hash, sign);
      srv.db == o.db && reply == o.reply
  {
    if !Truthy(name) || !Truthy(email) || !Truthy(password) {
      return Fail(400, MissingFields);
    }
    if FindByEmail(srv.db.users, email.value).Some? {
      return Fail(400, UserExists);
    }
    var user := Registered(name.value, email.value, password.value, hash);
    var id := NextId(srv.db.users);
    srv.db := srv.db.(users := srv.db.users[id := user]);
    reply := AuthSuccess(id, user, sign);
  }

  /** Registration keeps addresses unique. */
  lemma RegisterKeepsEmailsUnique(db: Db, name: Option<string>, email: Option<string>, password: Option<string>,
                                  hash: string -> string, sign: Signer)
    requires UniqueEmails(db.users)
    ensures UniqueEmails(RegisterOutcome(db, name, email, password, hash, sign).db.users)
  {
    var o := RegisterOutcome(db, name, email, password, hash, sign);
    if o.reply.Ok? {
      var id := NextId(db.users);
      var users1 := o.db.users;
      assert users1 == db.users[id := Registered(name.value, email.value, password.value, hash)];
      forall a, b | a in users1 && b in users1 && a != b && users1[a].email.Some?
        ensures users1[a].email != users1[b].email
      {
        if a == id {
          assert b in db.users;
        } else if b == id {
          assert a in db.users;
        }
      }
    }
  }

  // ---------------------------------------------------------------------
  // loginUser

  const InvalidCredentials: string := "Invalid credentials"

  /** A successful login: either the full sign-in or, with 2FA enabled, the
      `twoFactorRequired` answer with the token the source calls temporary. */
  datatype LoginBody = SignedIn(auth: AuthBody) | TwoFactorRequired(tempToken: string)

  /** `loginUser`. `bcrypt.compare` rejects a missing entry by throwing, which
      only happens once a stored hash is found. */
  function LoginOutcome(db: Db, email: string, password: Option<string>,
                        compare: (string, string) -> bool, sign: Signer): (r: Reply<LoginBody>)
    ensures r.Ok? <==>
      var found := FindByEmail(db.users, email);
      found.Some? && password.Some? && MatchPassword(db.users[found.value], password.value, compare)
    ensures r.Ok? ==>
      var id := FindByEmail(db.users, email).value;
      && r.status == 200
      && (db.users[id].isTwoFactorEnabled ==> r.body == TwoFactorRequired(sign(id)))
      && (!db.users[id].isTwoFactorEnabled ==> r.body == SignedIn(AuthSuccess(id, db.users[id], sign).body))
    ensures r.Thrown? <==>
      var found := FindByEmail(db.users, email);
      found.Some? && password.None? && Truthy(db.users[found.value].password)
    ensures r.Fail? ==> r == Fail(401, InvalidCredentials)
  {
    var found := FindByEmail(db.users, email);
    if found.None? then Fail(401, InvalidCredentials)
    else
      var u := db.users[found.value];
      if !Truthy(u.password) then Fail(401, InvalidCredentials)
      else if password.None? then Thrown
      else if !MatchPassword(u, password.value, compare) then Fail(401, InvalidCredentials)
      else if u.isTwoFactorEnabled then Ok(200, TwoFactorRequired(sign(found.value)))
      else Ok(200, SignedIn(AuthSuccess(found.value, u, sign).body))
  }

  /** Registering and then logging in with the same address and password
      signs the new account in directly (bcrypt accepting a password against
      its own hash). */
  lemma RegisteredUserCanLogIn(db: Db, name: string, email: string, password: string,
                               hash: string -> string, compare: (string, string) -> bool, sign: Signer)
    requires UniqueEmails(db.users)
    requires RegisterOutcome(db, Some(name), Some(email), Some(password), hash, sign).reply.Ok?
    requires hash(password) != [] && compare(password, hash(password))
    ensures var o := RegisterOutcome(db, Some(name), Some(email), Some(password), hash, sign);
      LoginOutcome(o.db, email, Some(password), compare, sign) == Ok(200, SignedIn(o.reply.body))
  {
    var o := RegisterOutcome(db, Some(name), Some(email), Some(password), hash, sign);
    var id := NextId(db.users);
    RegisterKeepsEmailsUnique(db, Some(name), Some(email), Some(password), hash, sign);
    FindByEmailUnique(o.db.users, email, id);
    assert MatchPassword(o.db.users[id], password, compare);
  }

  // ---------------------------------------------------------------------
  // createAnonymousUser

  /** `s.substring(from, to)` with both ends clamped to the string. */
  function Substring(s: string, from: nat, to: nat): (r: string)
    ensures |r| <= to - from || (to < from && r == [])
    ensures |r| <= |s|
  {
    var a := if from <= |s| then from else |s|;
    var b := if to <= |s| then to else |s|;
    if a <= b then s[a..b] else []
  }

  /** `User-` followed by `Math.random().toString(36).substring(2, 8)`;
      `draw` is the base-36 rendering of the random number ("0." and its
      digits), which may have fewer than six digits. */
  function AnonymousName(draw: string): (r: string)
    ensures 5 <= |r| <= 11 && r[..5] == "User-"
  {
    "User-" + Substring(draw, 2, 8)
  }

  /** An anonymous account: no address and no password, avatar `A`. */
  function Anonymous(draw: string): (u: User)
    ensures u.isAnonymous && u.avatar == "A" && u.name == AnonymousName(draw)
    ensures u.email.None? && u.password.None? && !u.isTwoFactorEnabled
  {
    NewUser(AnonymousName(draw), None, None, Some("A"), true)
  }

  /** `createAnonymousUser`: the account is stored at a fresh id and signed in. */
  function CreateAnonymousOutcome(db: Db, draw: string, sign: Signer): (o: Outcome<AuthBody>)
    ensures var id := NextId(db.users);
      && id !in db.users
      && o.db == db.(users := db.users[id := Anonymous(draw)])
      && o.reply == AuthSuccess(id, Anonymous(draw), sign)
    ensures o.events == []
  {
    var id := NextId(db.users);
    Outcome(AuthSuccess(id, Anonymous(draw), sign), db.(users := db.users[id := Anonymous(draw)]), [])
  }

  method CreateAnonymousUser(srv: Server, draw: string, sign: Signer) returns (reply: Reply<AuthBody>)
    modifies srv`db
    ensures var o := CreateAnonymousOutcome(old(srv.db), draw, sign);
      srv.db == o.db && reply == o.reply
  {
    var user := Anonymous(draw);
    var id := NextId(srv.db.users);
    srv.db := srv.db.(users := srv.db.users[id := user]);
    reply := AuthSuccess(id, user, sign);
  }

  /** An anonymous account has no address, so password login never reaches
      it: every lookup by address finds what it found before. */
  lemma AnonymousInvisibleToLogin(db: Db, draw: string, sign: Signer, email: string)
    ensures FindByEmail(CreateAnonymousOutcome(db, draw, sign).db.users, email) == FindByEmail(db.users, email)
  {
    var u := Anonymous(draw);
    assert u.email.None?;
    AddedWithoutEmail(db.users, NextId(db.users), u, email);
  }

  /** Storing an account without an address leaves every lookup by address as it was. */
  lemma AddedWithoutEmail(users: map<Id, User>, id: Id, u: User, email: string)
    requires id !in users && u.email.None?
    ensures FindByEmail(users[id := u], email) == FindByEmail(users, email)
  {
    var users1 := users[id := u];
    var a := FindByEmail(users, email);
    var b := FindByEmail(users1, email);
    if a.Some? {
      assert users1[a.value] == users[a.value];
      assert b.Some?;
      assert b.value != id;
      assert users[b.value] == users1[b.value];
      assert a.value <= b.value && b.value <= a.value;
    } else {
      forall k | k in users1
        ensures users1[k].email != Some(email)
      {
        if k != id {
          assert users1[k] == users[k];
        }
      }
    }
  }

  // ---------------------------------------------------------------------
  // Two-factor authentication

  datatype SecretBody = SecretBody(secret: string, qrCodeUrl: string)

  const QrFailed: string := "Could not generate QR code."

  /** `generateTwoFactorSecret`: the new base32 secret is stored (without
      enabling 2FA) and returned with its QR code; when the QR rendering
      fails the secret stays stored and the error handler answers 500. An
      unknown user id leaves the store as it is. */
  function GenerateSecretOutcome(db: Db, me: Id, secret: string, qr: Option<string>): (o: Outcome<SecretBody>)
    ensures me in db.users ==> o.db == db.(users := db.users[me := db.users[me].(twoFactorSecret := Some(secret))])
    ensures me !in db.users ==> o.db == db
    ensures qr.Some? ==> o.reply == Ok(200, SecretBody(secret, qr.value))
    ensures qr.None? ==> o.reply == Fail(500, QrFailed)
    ensures o.events == []
  {
    var db1 := if me in db.users then db.(users := db.users[me := db.users[me].(twoFactorSecret := Some(secret))]) else db;
    Outcome(if qr.Some? then Ok(200, SecretBody(secret, qr.value)) else Raised(200, QrFailed), db1, [])
  }

  method GenerateTwoFactorSecret(srv: Server, me: Id, secret: string, qr: Option<string>) returns (reply: Reply<SecretBody>)
    modifies srv`db
    ensures var o := GenerateSecretOutcome(old(srv.db), me, secret, qr);
      srv.db == o.db && reply == o.reply
  {
    if me in srv.db.users {
      srv.db := srv.db.(users := srv.db.users[me := srv.db.users[me].(twoFactorSecret := Some(secret))]);
    }
    if qr.Some? {
      reply := Ok(200, SecretBody(secret, qr.value));
    } else {
      reply := Fail(500, QrFailed);
    }
  }

  const SecretNotFound: string := "2FA secret not found. Please generate one first."
  const Enabled: string := "2FA has been enabled."
  const InvalidSetupToken: string := "Invalid token. Please try again."

  /** `verifyTwoFactorSetup`: without a stored secret 400; a code the secret
      accepts enables 2FA, any other is refused with 400. Only the flag
      changes (the save does not touch the password). */
  function VerifySetupOutcome(db: Db, me: Id, token: Option<string>, verify: Totp): (o: Outcome<string>)
    ensures (me !in db.users || !Truthy(db.users[me].twoFactorSecret)) ==> o == Outcome(Fail(400, SecretNotFound), db, [])
    ensures o.reply.Ok? <==>
      me in db.users && Truthy(db.users[me].twoFactorSecret) && verify(db.users[me].twoFactorSecret, token)
    ensures o.reply.Ok? ==>
      o.reply == Ok(200, Enabled) && o.db == db.(users := db.users[me := db.users[me].(isTwoFactorEnabled := true)])
    ensures !o.reply.Ok? ==> o.db == db && o.reply.Fail? && o.reply.status == 400
    ensures o.events == []
  {
    if me !in db.users || !Truthy(db.users[me].twoFactorSecret) then Outcome(Fail(400, SecretNotFound), db, [])
    else if verify(db.users[me].twoFactorSecret, token) then
      Outcome(Ok(200, Enabled), db.(users := db.users[me := db.users[me].(isTwoFactorEnabled := true)]), [])
    else Outcome(Fail(400, InvalidSetupToken), db, [])
  }

  method VerifyTwoFactorSetup(srv: Server, me: Id, token: Option<string>, verify: Totp) returns (reply: Reply<string>)
    modifies srv`db
    ensures var o := VerifySetupOutcome(old(srv.db), me, token, verify);
      srv.db == o.db && reply == o.reply
  {
    if me !in srv.db.users || !Truthy(srv.db.users[me].twoFactorSecret) {
      return Fail(400, SecretNotFound);
    }
    var user := srv.db.users[me];
    if verify(user.twoFactorSecret, token) {
      user := user.(isTwoFactorEnabled := true);
      srv.db := srv.db.(users := srv.db.users[me := user]);
      reply := Ok(200, Enabled);
    } else {
      reply := Fail(400, InvalidSetupToken);
    }
  }

  /** Once 2FA is enabled, the right password no longer yields the
      sign-in body: login answers `twoFactorRequired` with a token,
      `generateToken(id)` (see `TwoFactorFirstStepOpensSession` for what
      that token opens). */
  lemma EnabledTwoFactorGatesLogin(db: Db, me: Id, token: Option<string>, verify: Totp,
                                   email: string, password: string, compare: (string, string) -> bool, sign: Signer)
    requires UniqueEmails(db.users)
    requires VerifySetupOutcome(db, me, token, verify).reply.Ok?
    requires db.users[me].email == Some(email) && MatchPassword(db.users[me], password, compare)
    ensures LoginOutcome(VerifySetupOutcome(db, me, token, verify).db, email, Some(password), compare, sign)
      == Ok(200, TwoFactorRequired(sign(me)))
  {
    var users1 := VerifySetupOutcome(db, me, token, verify).db.users;
    assert UniqueEmails(users1) by {
      assert forall k :: k in users1 ==> users1[k].email == db.users[k].email;
    }
    FindByEmailUnique(users1, email, me);
  }

  /** As written, the first step of a two-factor login already opens a
      session: the token answered is `generateToken(id)`, the very token a
      full sign-in issues, and `protect` accepts it on every protected
      route, not only on /2fa/verify-login. */
  lemma TwoFactorFirstStepOpensSession(db: Db, me: Id, email: string, password: string,
                                       compare: (string, string) -> bool, sign: Signer, verify: string -> Option<Id>)
    requires FindByEmail(db.users, email) == Some(me)
    requires db.users[me].isTwoFactorEnabled && MatchPassword(db.users[me], password, compare)
    requires ' ' !in sign(me) && verify(sign(me)) == Some(me)
    ensures var r := LoginOutcome(db, email, Some(password), compare, sign);
      && r == Ok(200, TwoFactorRequired(AuthSuccess(me, db.users[me], sign).body.token))
      && Gate.Protect(db.users, Some("Bearer " + r.body.tempToken), verify) == Gate.PassAs(me)
  {
    Gate.BearerTokenAuthenticates(db.users, sign(me), verify);
  }

  /** Signs a session token for a user id. */
  function SessionSigner(signClaim: Gate.Claim -> string): Signer {
    (id: Id) => signClaim(Gate.Claim(id, Gate.Session))
  }

  /** The login the comment at authController.js:63-64 intends: a 2FA user
      gets a token limited to the second step; everything else is
      `loginUser` with session tokens. */
  function LoginIntended(db: Db, email: string, password: Option<string>,
                         compare: (string, string) -> bool, signClaim: Gate.Claim -> string): (r: Reply<LoginBody>)
    ensures r.Ok? <==> LoginOutcome(db, email, password, compare, SessionSigner(signClaim)).Ok?
    ensures !r.Ok? ==> r == LoginOutcome(db, email, password, compare, SessionSigner(signClaim))
    ensures r.Ok? ==>
      var id := FindByEmail(db.users, email).value;
      && (db.users[id].isTwoFactorEnabled ==> r == Ok(200, TwoFactorRequired(signClaim(Gate.Claim(id, Gate.SecondStep)))))
      && (!db.users[id].isTwoFactorEnabled ==>
            r == Ok(200, SignedIn(AuthSuccess(id, db.users[id], SessionSigner(signClaim)).body)))
  {
    var r := LoginOutcome(db, email, password, compare, SessionSigner(signClaim));
    if r.Ok? && r.body.TwoFactorRequired? then
      Ok(200, TwoFactorRequired(signClaim(Gate.Claim(FindByEmail(db.users, email).value, Gate.SecondStep))))
    else r
  }

  /** With second-step tokens, the first step of a two-factor login opens
      nothing but /2fa/verify-login: ordinary routes refuse its token with
      401, the verify-login route accepts it for the user. */
  lemma IntendedTempTokenOnlyForSecondStep(db: Db, me: Id, email: string, password: string,
                                           compare: (string, string) -> bool, signClaim: Gate.Claim -> string,
                                           verify: string -> Option<Gate.Claim>)
    requires FindByEmail(db.users, email) == Some(me)
    requires db.users[me].isTwoFactorEnabled && MatchPassword(db.users[me], password, compare)
    requires var t := signClaim(Gate.Claim(me, Gate.SecondStep)); ' ' !in t && verify(t) == Some(Gate.Claim(me, Gate.SecondStep))
    ensures var r := LoginIntended(db, email, Some(password), compare, signClaim);
      var header := Some("Bearer " + r.body.tempToken);
      && r.Ok? && r.body.TwoFactorRequired?
      && Gate.ProtectFor(db.users, header, verify, Gate.Session) == Gate.Deny(401, "Not authorized, token failed")
      && Gate.ProtectFor(db.users, header, verify, Gate.SecondStep) == Gate.PassAs(me)
  {
    var t := signClaim(Gate.Claim(me, Gate.SecondStep));
    assert LoginOutcome(db, email, Some(password), compare, SessionSigner(signClaim)).Ok?;
    assert LoginIntended(db, email, Some(password), compare, signClaim) == Ok(200, TwoFactorRequired(t));
    Gate.PurposeDecides(db.users, t, verify, Gate.Session);
    Gate.PurposeDecides(db.users, t, verify, Gate.SecondStep);
  }

  const InvalidTwoFactorToken: string := "Invalid 2FA token."

  /** `parseInt(t, 10)` yields a number: after leading white space and an
      optional sign comes a decimal digit. */
  predicate ParsesAsInt(t: string) {
    var u := TrimStart(t);
    var v := if u != [] && (u[0] == '+' || u[0] == '-') then u[1..] else u;
    v != [] && '0' <= v[0] <= '9'
  }

  /** A token that speakeasy's `verifyDelta` takes past its format checks to
      the HMAC step: `String(token)` is six UTF-16 units long and `parseInt`
      reads it as a number. A missing token is `String(undefined)`, nine
      units long. */
  predicate TotpCandidate(token: Option<string>) {
    token.Some? && Utf16Length(token.value) == 6 && ParsesAsInt(token.value)
  }

  /** `verifyTwoFactorLogin`, after `protect` accepted the caller's token:
      a code accepted for the stored secret completes the sign-in, any other
      gives 401. A user deleted in between makes the handler throw. A user
      with no stored secret never signs in: a well-formed code reaches the
      base32 decoding of the undefined secret, which throws, and any other
      code is refused by the format checks with 401. */
  function VerifyLoginOutcome(db: Db, me: Id, token: Option<string>, verify: Totp, sign: Signer): (r: Reply<AuthBody>)
    ensures r.Thrown? <==>
      me !in db.users || (db.users[me].twoFactorSecret.None? && TotpCandidate(token))
    ensures r.Ok? <==>
      me in db.users && db.users[me].twoFactorSecret.Some? && verify(db.users[me].twoFactorSecret, token)
    ensures r.Ok? ==> r == AuthSuccess(me, db.users[me], sign)
    ensures r.Fail? ==> r == Fail(401, InvalidTwoFactorToken)
  {
    if me !in db.users then Thrown
    else if db.users[me].twoFactorSecret.None? then
      if TotpCandidate(token) then Thrown else Fail(401, InvalidTwoFactorToken)
    else if verify(db.users[me].twoFactorSecret, token) then AuthSuccess(me, db.users[me], sign)
    else Fail(401, InvalidTwoFactorToken)
  }

  /** Without a stored secret the second step never signs in, whatever the
      code and whatever the TOTP check. */
  lemma NoSecretNeverSignsIn(db: Db, me: Id, verify: Totp, sign: Signer)
    requires me in db.users && db.users[me].twoFactorSecret.None?
    ensures forall token :: VerifyLoginOutcome(db, me, token, verify, sign) ==
                            (if TotpCandidate(token) then Thrown else Fail(401, InvalidTwoFactorToken))
  {
  }

  /** speakeasy's format checks, for every token: six decimal digits always
      reach the HMAC step; a token that is not six UTF-16 units long, one
      that starts with a letter, and a missing one never do. */
  lemma CandidateFormat(t: string)
    ensures (|t| == 6 && forall i :: 0 <= i < |t| ==> '0' <= t[i] <= '9') ==> TotpCandidate(Some(t))
    ensures Utf16Length(t) != 6 ==> !TotpCandidate(Some(t))
    ensures t != [] && ('a' <= t[0] <= 'z' || 'A' <= t[0] <= 'Z') ==> !TotpCandidate(Some(t))
    ensures !TotpCandidate(None)
  {
    if t != [] && ('0' <= t[0] <= '9' || 'a' <= t[0] <= 'z' || 'A' <= t[0] <= 'Z') {
      AlphanumericStart(t);
    }
    if |t| == 6 && forall i :: 0 <= i < |t| ==> '0' <= t[i] <= '9' {
      assert forall i :: 0 <= i < |t| ==> t[i] as int <= 0xFFFF;
    }
  }

  /** `parseInt` reads a token that starts with a letter or a digit as a
      number iff that first character is a digit. */
  lemma AlphanumericStart(t: string)
    requires t != [] && ('0' <= t[0] <= '9' || 'a' <= t[0] <= 'z' || 'A' <= t[0] <= 'Z')
    ensures ParsesAsInt(t) <==> '0' <= t[0] <= '9'
  {
    assert !IsSpace(t[0]);
    assert TrimStart(t) == t;
  }

  const InvalidPassword: string := "Invalid password."
  const Disabled: string := "2FA has been disabled."

  /** `disableTwoFactor`: the account password is required; it clears both
      the flag and the stored secret. */
  function DisableOutcome(db: Db, me: Id, password: Option<string>, compare: (string, string) -> bool): (o: Outcome<string>)
    ensures o.reply.Ok? <==>
      me in db.users && password.Some? && MatchPassword(db.users[me], password.value, compare)
    ensures o.reply.Ok? ==>
      o.reply == Ok(200, Disabled) && o.db == db.(users := db.users[me := db.users[me].(isTwoFactorEnabled := false, twoFactorSecret := None)])
    ensures o.reply.Thrown? <==> me in db.users && password.None? && Truthy(db.users[me].password)
    ensures !o.reply.Ok? ==> o.db == db
    ensures o.reply.Fail? ==> o.reply == Fail(401, InvalidPassword)
    ensures o.events == []
  {
    if me !in db.users || !Truthy(db.users[me].password) then Outcome(Fail(401, InvalidPassword), db, [])
    else if password.None? then Outcome(Thrown, db, [])
    else if !MatchPassword(db.users[me], password.value, compare) then Outcome(Fail(401, InvalidPassword), db, [])
    else
      Outcome(Ok(200, Disabled),
              db.(users := db.users[me := db.users[me].(isTwoFactorEnabled := false, twoFactorSecret := None)]), [])
  }

  method DisableTwoFactor(srv: Server, me: Id, password: Option<string>, compare: (string, string) -> bool)
    returns (reply: Reply<string>)
    modifies srv`db
    ensures var o := DisableOutcome(old(srv.db), me, password, compare);
      srv.db == o.db && reply == o.reply
  {
    if me !in srv.db.users || !Truthy(srv.db.users[me].password) {
      return Fail(401, InvalidPassword);
    }
    if password.None? {
      return Thrown;
    }
    var user := srv.db.users[me];
    if !MatchPassword(user, password.value, compare) {
      return Fail(401, InvalidPassword);
    }
    user := user.(isTwoFactorEnabled := false, twoFactorSecret := None);
    srv.db := srv.db.(users := srv.db.users[me := user]);
    reply := Ok(200, Disabled);
  }

  /** Disabling 2FA undoes setup: the user signs in with the password alone
      again, and a new setup needs a freshly generated secret. */
  lemma DisableRestoresPasswordLogin(db: Db, me: Id, password: string, compare: (string, string) -> bool,
                                     email: string, sign: Signer, token: Option<string>, verify: Totp)
    requires UniqueEmails(db.users)
    requires DisableOutcome(db, me, Some(password), compare).reply.Ok?
    requires db.users[me].email == Some(email)
    ensures var db1 := DisableOutcome(db, me, Some(password), compare).db;
      LoginOutcome(db1, email, Some(password), compare, sign).Ok? &&
      LoginOutcome(db1, email, Some(password), compare, sign).body.SignedIn?
    ensures var db1 := DisableOutcome(db, me, Some(password), compare).db;
      VerifySetupOutcome(db1, me, token, verify) == Outcome(Fail(400, SecretNotFound), db1, [])
  {
    var users1 := DisableOutcome(db, me, Some(password), compare).db.users;
    assert UniqueEmails(users1) by {
      assert forall k :: k in users1 ==> users1[k].email == db.users[k].email;
    }
    FindByEmailUnique(users1, email, me);
  }
}
