/** The self-service account handlers of controllers/userController.js. */
module Users {
  import opened Common
  import opened Models
  import opened Store
  import opened Http
  import Admin
  import Auth

  // ---------------------------------------------------------------------
  // updateUserProfile

  /** The fields of the request body the handler reads. */
  datatype ProfileUpdate = ProfileUpdate(
    name: Option<string>, email: Option<string>, theme: Option<string>, language: Option<string>,
    avatar: Option<string>, password: Option<string>, academicProfile: Option<AcademicProfile>)

  /** The profile response: the saved record without password, with `id`. */
  datatype ProfileView = ProfileView(id: Id, user: User)

  /** Another account already holds this e-mail (the unique, sparse index). */
  predicate EmailTaken(users: map<Id, User>, me: Id, email: Option<string>) {
    email.Some? && exists k :: k in users && k != me && users[k].email == email
  }

  /** What `user.save()` checks of the merged record: the required name, the
      theme and academic status enumerations, and the unique e-mail. */
  predicate Saveable(users: map<Id, User>, me: Id, name: string, email: Option<string>, theme: string,
                     academicProfile: Option<AcademicProfile>) {
    name != "" && theme in Themes && (academicProfile.None? || ValidAcademicProfile(academicProfile.value)) &&
    !EmailTaken(users, me, email)
  }

  /** The merged profile before the save hook: name, e-mail, theme and
      language fall back to the stored values when the supplied ones are
      falsy; avatar, password and academic profile are replaced only when
      supplied. The record was read without its password, but `save` writes
      only the paths that were assigned, so an unsupplied password stays
      stored as it was. */
  function Merge(u: User, p: ProfileUpdate, theme: Theme): (r: User)
    ensures r.name == Or(p.name, u.name) && r.language == Or(p.language, u.language) && r.theme == theme
    ensures r.email == (if Truthy(p.email) then p.email else u.email)
    ensures r.avatar == Or(p.avatar, u.avatar)
    ensures r.password == (if Truthy(p.password) then p.password else u.password)
    ensures r.academicProfile == (if p.academicProfile.Some? then p.academicProfile else u.academicProfile)
    ensures r == u.(name := r.name, email := r.email, theme := r.theme, language := r.language,
                    avatar := r.avatar, password := r.password, academicProfile := r.academicProfile)
  {
    u.(name := Or(p.name, u.name),
       email := if Truthy(p.email) then p.email else u.email,
       theme := theme,
       language := Or(p.language, u.language),
       avatar := Or(p.avatar, u.avatar),
       password := if Truthy(p.password) then p.password else u.password,
       academicProfile := if p.academicProfile.Some? then p.academicProfile else u.academicProfile)
  }

  /** `updateUserProfile`. `hash` stands for bcrypt in the save hook. A
      merged record the schema or the unique index rejects makes the save
      throw; nothing is stored then. */
  function UpdateProfileOutcome(db: Db, me: Id, p: ProfileUpdate, hash: string -> string): (o: Outcome<ProfileView>)
    ensures o.events == []
    ensures me !in db.users ==> o == Outcome(Fail(404, "User not found"), db, [])
    ensures !o.reply.Ok? ==> o.db == db
    ensures o.reply.Ok? <==>
      me in db.users &&
      var theme := Or(p.theme, db.users[me].theme);
      Saveable(db.users, me, Or(p.name, db.users[me].name), if Truthy(p.email) then p.email else db.users[me].email,
               theme, if p.academicProfile.Some? then p.academicProfile else db.users[me].academicProfile)
    ensures o.reply.Ok? ==>
      && me in o.db.users
      && o.db == db.(users := db.users[me := o.db.users[me]])
      && o.db.users[me] == PreSave(Merge(db.users[me], p, o.db.users[me].theme), Truthy(p.password), hash)
      && o.reply == Ok(200, ProfileView(me, Redacted(o.db.users[me])))
  {
    if me !in db.users then Answer(db, Raised(404, "User not found"))
    else
      var u := db.users[me];
      var theme := Or(p.theme, u.theme);
      var academic := if p.academicProfile.Some? then p.academicProfile else u.academicProfile;
      var email := if Truthy(p.email) then p.email else u.email;
      if !Saveable(db.users, me, Or(p.name, u.name), email, theme, academic) then Answer(db, Thrown)
      else
        var saved := PreSave(Merge(u, p, theme), Truthy(p.password), hash);
        Outcome(Ok(200, ProfileView(me, Redacted(saved))), db.(users := db.users[me := saved]), [])
  }

  /** A body that supplies nothing stores the record exactly as it was,
      password hash included. */
  lemma EmptyUpdateKeepsProfile(db: Db, me: Id, hash: string -> string)
    requires me in db.users && db.users[me].name != "" && !EmailTaken(db.users, me, db.users[me].email)
    requires db.users[me].academicProfile.None? || ValidAcademicProfile(db.users[me].academicProfile.value)
    ensures var o := UpdateProfileOutcome(db, me, ProfileUpdate(None, None, None, None, None, None, None), hash);
      o.reply.Ok? && o.db == db
  {
    var u := db.users[me];
    var p := ProfileUpdate(None, None, None, None, None, None, None);
    assert Or(None, u.theme) == u.theme;
    assert Merge(u, p, u.theme) == u;
    assert PreSave(u, false, hash) == u;
    assert db.(users := db.users[me := u]) == db;
  }

  /** Whatever the body, the response never carries a password. */
  lemma ProfileResponseHidesPassword(db: Db, me: Id, p: ProfileUpdate, hash: string -> string)
    requires UpdateProfileOutcome(db, me, p, hash).reply.Ok?
    ensures UpdateProfileOutcome(db, me, p, hash).reply.body.user.password.None?
  {
  }

  /** An update that sends no password keeps the user able to log in: the
      password that matched before still matches, and the user's e-mail
      after the update (new or kept) finds that user, since the save refused
      an address another account holds. */
  lemma UpdateKeepsLogin(db: Db, me: Id, p: ProfileUpdate, hash: string -> string, password: string,
                         compare: (string, string) -> bool, sign: Auth.Signer)
    requires UpdateProfileOutcome(db, me, p, hash).reply.Ok?
    requires !Truthy(p.password)
    requires MatchPassword(db.users[me], password, compare)
    ensures var users := UpdateProfileOutcome(db, me, p, hash).db.users;
      && users[me].password == db.users[me].password
      && (users[me].email.Some? ==> Auth.LoginOutcome(UpdateProfileOutcome(db, me, p, hash).db, users[me].email.value,
                                                      Some(password), compare, sign).Ok?)
  {
    var o := UpdateProfileOutcome(db, me, p, hash);
    var u := o.db.users[me];
    assert o.db.users == db.users[me := u];
    assert u.password == db.users[me].password;
    if u.email.Some? {
      assert !EmailTaken(db.users, me, u.email);
      OwnEmailFindsOwner(db.users, me, u);
    }
  }

  /** A record stored under an e-mail no other account holds is the one an
      e-mail lookup finds. */
  lemma OwnEmailFindsOwner(users: map<Id, User>, me: Id, u: User)
    requires u.email.Some? && !EmailTaken(users, me, u.email)
    ensures Auth.FindByEmail(users[me := u], u.email.value) == Some(me)
  {
    var users' := users[me := u];
    assert me in users' && users'[me].email == Some(u.email.value);
    var found := Auth.FindByEmail(users', u.email.value);
    assert found.Some?;
  }

  method UpdateUserProfile(srv: Server, me: Id, p: ProfileUpdate, hash: string -> string) returns (reply: Reply<ProfileView>)
    modifies srv`db
    ensures var o := UpdateProfileOutcome(old(srv.db), me, p, hash); srv.db == o.db && reply == o.reply
  {
    if me !in srv.db.users {
      return Raised(404, "User not found");
    }
    var user := srv.db.users[me];
    var theme := Or(p.theme, user.theme);
    var email := if Truthy(p.email) then p.email else user.email;
    var academic := if p.academicProfile.Some? then p.academicProfile else user.academicProfile;
    if !Saveable(srv.db.users, me, Or(p.name, user.name), email, theme, academic) {
      return Thrown;
    }
    user := Merge(user, p, theme);
    user := PreSave(user, Truthy(p.password), hash);
    srv.db := srv.db.(users := srv.db.users[me := user]);
    reply := Ok(200, ProfileView(me, Redacted(user)));
  }

  // ---------------------------------------------------------------------
  // updateUserPresence

  /** `updateUserPresence`: 404 for an unknown user, 400 for a non-empty
      status outside the five known ones; otherwise the presence is replaced
      (status `online` and message "" when omitted) and broadcast. */
  function UpdatePresenceOutcome(db: Db, me: Id, status: Option<string>, message: Option<string>): (o: Outcome<Presence>)
    ensures me !in db.users ==> o == Outcome(Fail(404, "User not found"), db, [])
    ensures me in db.users && Truthy(status) && status.value !in PresenceStatuses ==>
      o == Outcome(Fail(400, "Invalid status value"), db, [])
    ensures o.reply.Ok? <==> me in db.users && (!Truthy(status) || status.value in PresenceStatuses)
    ensures o.reply.Ok? ==>
      var pr := o.reply.body;
      && pr.status == Or(status, "online")
      && pr.message == Some(Or(message, ""))
      && o.db == db.(users := db.users[me := db.users[me].(presence := pr)])
      && o.events == [Emit(Everyone, PresenceUpdate(me, pr))]
  {
    if me !in db.users then Answer(db, Raised(404, "User not found"))
    else if Truthy(status) && status.value !in PresenceStatuses then Answer(db, Raised(400, "Invalid status value"))
    else
      var s: PresenceStatus := if Truthy(status) then status.value else "online";
      var pr := Presence(s, Some(Or(message, "")));
      Outcome(Ok(200, pr), db.(users := db.users[me := db.users[me].(presence := pr)]),
              [Emit(Everyone, PresenceUpdate(me, pr))])
  }

  method UpdateUserPresence(srv: Server, me: Id, status: Option<string>, message: Option<string>) returns (reply: Reply<Presence>)
    modifies srv`db, srv`events
    ensures var o := UpdatePresenceOutcome(old(srv.db), me, status, message);
      srv.db == o.db && reply == o.reply && srv.events == old(srv.events) + o.events
  {
    if me !in srv.db.users {
      return Raised(404, "User not found");
    }
    if Truthy(status) && status.value !in PresenceStatuses {
      return Raised(400, "Invalid status value");
    }
    var user := srv.db.users[me];
    var s: PresenceStatus := if Truthy(status) then status.value else "online";
    user := user.(presence := Presence(s, Some(Or(message, ""))));
    srv.db := srv.db.(users := srv.db.users[me := user]);
    srv.events := srv.events + [Emit(Everyone, PresenceUpdate(me, user.presence))];
    reply := Ok(200, user.presence);
  }

  // ---------------------------------------------------------------------
  // submitForVerification

  const AlreadyUnderway := "Verification is already in progress or completed."

  /** `submitForVerification`: 404 for an unknown user, 400 for anonymous
      users and for requests already pending or verified; otherwise the
      status becomes `pending` and nothing else changes. */
  function SubmitOutcome(db: Db, me: Id): (o: Outcome<UserReply>)
    ensures o.events == []
    ensures me !in db.users ==> o.reply == Fail(404, "User not found.") && o.db == db
    ensures me in db.users && db.users[me].isAnonymous ==>
      o.reply == Fail(400, "Anonymous users cannot be verified.") && o.db == db
    ensures me in db.users && !db.users[me].isAnonymous && db.users[me].verificationStatus in {"pending", "verified"} ==>
      o.reply == Fail(400, AlreadyUnderway) && o.db == db
    ensures o.reply.Ok? <==>
      me in db.users && !db.users[me].isAnonymous && db.users[me].verificationStatus in {"none", "rejected"}
    ensures o.reply.Ok? ==>
      var u := db.users[me].(verificationStatus := "pending");
      o.db == db.(users := db.users[me := u]) &&
      o.reply == Ok(200, UserReply("Your verification request has been submitted for review.", Redacted(u)))
  {
    if me !in db.users then Answer(db, Raised(404, "User not found."))
    else
      var u := db.users[me];
      if u.isAnonymous then Answer(db, Raised(400, "Anonymous users cannot be verified."))
      else if u.verificationStatus == "pending" || u.verificationStatus == "verified" then Answer(db, Raised(400, AlreadyUnderway))
      else
        var u' := u.(verificationStatus := "pending");
        Outcome(Ok(200, UserReply("Your verification request has been submitted for review.", Redacted(u'))),
                db.(users := db.users[me := u']), [])
  }

  /** The verification cycle: a submitted request can be approved by an
      admin, after which the user is verified and a new submission is
      refused; a rejected user may submit again. */
  lemma VerificationCycle(db: Db, sockets: map<Id, SocketId>, me: Id)
    requires me in db.users && !db.users[me].isAnonymous && db.users[me].verificationStatus == "none"
    ensures var submitted := SubmitOutcome(db, me).db;
      var approved := Admin.VerificationOutcome(submitted, sockets, me, Some("approve")).db;
      var rejected := Admin.VerificationOutcome(submitted, sockets, me, Some("reject")).db;
      && submitted.users[me].verificationStatus == "pending"
      && approved.users[me].isVerified && approved.users[me].verificationStatus == "verified"
      && SubmitOutcome(approved, me).reply == Fail(400, AlreadyUnderway)
      && SubmitOutcome(rejected, me).reply.Ok?
  {
    var submitted := SubmitOutcome(db, me).db;
    assert submitted.users[me].verificationStatus == "pending";
    var approved := Admin.VerificationOutcome(submitted, sockets, me, Some("approve")).db;
    assert approved.users[me].verificationStatus == "verified";
    assert !approved.users[me].isAnonymous;
    var rejected := Admin.VerificationOutcome(submitted, sockets, me, Some("reject")).db;
    assert rejected.users[me].verificationStatus == "rejected" && !rejected.users[me].isAnonymous;
  }

  method SubmitForVerification(srv: Server, me: Id) returns (reply: Reply<UserReply>)
    modifies srv`db
    ensures var o := SubmitOutcome(old(srv.db), me); srv.db == o.db && reply == o.reply
  {
    if me !in srv.db.users {
      return Raised(404, "User not found.");
    }
    var user := srv.db.users[me];
    if user.isAnonymous {
      return Raised(400, "Anonymous users cannot be verified.");
    }
    if user.verificationStatus == "pending" || user.verificationStatus == "verified" {
      return Raised(400, AlreadyUnderway);
    }
    user := user.(verificationStatus := "pending");
    srv.db := srv.db.(users := srv.db.users[me := user]);
    reply := Ok(200, UserReply("Your verification request has been submitted for review.", Redacted(user)));
  }
}
