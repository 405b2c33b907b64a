/** The account and moderation handlers of controllers/adminController.js. */
module Admin {
  import opened Common
  import opened Models
  import opened Store
  import opened Http
  import opened Ledger

  // ---------------------------------------------------------------------
  // updateUserRole

  /** `updateUserRole`: 404 for an unknown user, 400 for a role outside the
      three known ones; otherwise the role is stored and `isCreator` becomes
      true exactly for creators and admins. */
  function UpdateUserRoleOutcome(db: Db, userId: Id, role: Option<string>): (o: Outcome<User>)
    ensures o.events == []
    ensures userId !in db.users ==> o.reply == Fail(404, "User not found") && o.db == db
    ensures userId in db.users && (role.None? || role.value !in Roles) ==>
      o.reply == Fail(400, "Invalid role specified.") && o.db == db
    ensures o.reply.Ok? <==> userId in db.users && role.Some? && role.value in Roles
    ensures o.reply.Ok? ==>
      && userId in o.db.users
      && o.db == db.(users := db.users[userId := o.db.users[userId]])
      && var u := o.db.users[userId];
         && u == db.users[userId].(role := u.role, isCreator := u.isCreator)
         && u.role == role.value
         && (u.isCreator <==> role.value == "creator" || role.value == "admin")
         && o.reply == Ok(200, Redacted(u))
    ensures !o.reply.Ok? ==> o.db == db
  {
    if userId !in db.users then Answer(db, Raised(404, "User not found"))
    else if role.None? || role.value !in Roles then Answer(db, Raised(400, "Invalid role specified."))
    else
      var r: Role := role.value;
      var u := db.users[userId].(role := r, isCreator := r == "creator" || r == "admin");
      Outcome(Ok(200, Redacted(u)), db.(users := db.users[userId := u]), [])
  }

  /** Only admins are creators without the creator role, and a demotion to
      `user` always clears `isCreator`. */
  lemma DemotionClearsCreator(db: Db, userId: Id)
    requires userId in db.users
    ensures var o := UpdateUserRoleOutcome(db, userId, Some("user"));
      o.reply.Ok? && !o.db.users[userId].isCreator && o.db.users[userId].role == "user"
  {
  }

  method UpdateUserRole(srv: Server, userId: Id, role: Option<string>) returns (reply: Reply<User>)
    modifies srv`db
    ensures var o := UpdateUserRoleOutcome(old(srv.db), userId, role); srv.db == o.db && reply == o.reply
  {
    if userId !in srv.db.users {
      return Raised(404, "User not found");
    }
    if role.None? || role.value !in Roles {
      return Raised(400, "Invalid role specified.");
    }
    var r: Role := role.value;
    var user := srv.db.users[userId].(role := r, isCreator := r == "creator" || r == "admin");
    srv.db := srv.db.(users := srv.db.users[userId := user]);
    reply := Ok(200, Redacted(user));
  }

  // ---------------------------------------------------------------------
  // toggleMaintenanceMode

  /** The confirmation text for the new value of the flag. */
  function MaintenanceMessage(enabled: bool): (s: string)
    ensures enabled <==> s == "Maintenance mode has been enabled."
    ensures !enabled <==> s == "Maintenance mode has been disabled."
  {
    "Maintenance mode has been " + (if enabled then "enabled" else "disabled") + "."
  }

  /** `toggleMaintenanceMode`: the global flag is negated, so two toggles
      restore it. */
  method ToggleMaintenanceMode(srv: Server) returns (message: string)
    modifies srv`maintenance
    ensures srv.maintenance == !old(srv.maintenance)
    ensures message == MaintenanceMessage(srv.maintenance)
  {
    srv.maintenance := !srv.maintenance;
    message := MaintenanceMessage(srv.maintenance);
  }

  // ---------------------------------------------------------------------
  // getStats

  datatype Stats = Stats(totalUsers: nat, totalRevenue: int, totalTips: int, totalMarketplaceSales: int)

  /** The totals of `getStats`: all users, all amounts, the tips, and the
      difference of the two, which is the sum of every amount that is not a
      tip. Each aggregate over no transactions is 0. */
  function GetStats(db: Db): (s: Stats)
    ensures s.totalUsers == |db.users.Keys|
    ensures s.totalRevenue == AmountOver(db.transactions, AllTxIds(db.transactions), AnyTx)
    ensures s.totalTips == AmountOver(db.transactions, AllTxIds(db.transactions), TipsOnly)
    ensures s.totalMarketplaceSales == s.totalRevenue - s.totalTips
    ensures s.totalMarketplaceSales == AmountOver(db.transactions, AllTxIds(db.transactions), NonTips)
    ensures db.transactions == map[] ==> s.totalRevenue == 0 && s.totalTips == 0 && s.totalMarketplaceSales == 0
  {
    var ids := AllTxIds(db.transactions);
    var revenue := AmountOver(db.transactions, ids, AnyTx);
    var tips := AmountOver(db.transactions, ids, TipsOnly);
    SplitRevenue(db.transactions, ids);
    Stats(|db.users.Keys|, revenue, tips, revenue - tips)
  }

  /** The chart loop: thirty labels from 29 days ago up to today, oldest
      first, each with the day's total from `dateMap` or 0. Days are counted
      as whole numbers; their rendering as ISO dates is not modelled. */
  method DailyChart(dateMap: map<int, int>, today: int) returns (labels: seq<int>, data: seq<int>)
    ensures |labels| == 30 && |data| == 30
    ensures forall k :: 0 <= k < 30 ==> labels[k] == today - 29 + k
    ensures forall k :: 0 <= k < 30 ==> data[k] == (if labels[k] in dateMap then dateMap[labels[k]] else 0)
  {
    labels := [];
    data := [];
    var i := 29;
    while i >= 0
      invariant -1 <= i <= 29
      invariant |labels| == 29 - i && |data| == 29 - i
      invariant forall k :: 0 <= k < |labels| ==> labels[k] == today - 29 + k
      invariant forall k :: 0 <= k < |data| ==> data[k] == (if labels[k] in dateMap then dateMap[labels[k]] else 0)
    {
      var day := today - i;
      labels := labels + [day];
      data := data + [if day in dateMap then dateMap[day] else 0];
      i := i - 1;
    }
  }

  /** `getStats`: the totals and the daily revenue chart of the last 30 days,
      each point the sum of that day's transactions. */
  method Statistics(db: Db, today: int) returns (stats: Stats, labels: seq<int>, data: seq<int>)
    ensures stats == GetStats(db)
    ensures |labels| == 30 && |data| == 30
    ensures forall k :: 0 <= k < 30 ==> labels[k] == today - 29 + k
    ensures forall k :: 0 <= k < 30 ==>
      data[k] == AmountOver(db.transactions, AllTxIds(db.transactions), OnDay(labels[k]))
  {
    stats := GetStats(db);
    var dateMap := DailyTotals(db.transactions, today - 29);
    labels, data := DailyChart(dateMap, today);
    forall k | 0 <= k < 30
      ensures data[k] == AmountOver(db.transactions, AllTxIds(db.transactions), OnDay(labels[k]))
    {
      DailyTotalOrZero(db.transactions, today - 29, labels[k]);
    }
  }

  // ---------------------------------------------------------------------
  // getFlaggedContent

  /** A report still open: the verdict is a warning and no admin dismissed
      it (a message without `adminAction` matches `$ne: 'dismissed'`). */
  predicate Flagged(m: Message) {
    m.safety.status == "warning" && !(m.adminAction.Some? && m.adminAction.value.action == "dismissed")
  }

  /** `getFlaggedContent`: the open reports, newest first. */
  function FlaggedContent(db: Db): (r: seq<Id>)
    ensures Decreasing(r)
    ensures forall k :: k in r <==> k in db.messages && Flagged(db.messages[k])
  {
    var ids := IdsWhere(db.messages, Flagged);
    LatestDecreasing(ids, |ids|);
    LatestAll(ids);
    Latest(ids, |ids|)
  }

  // ---------------------------------------------------------------------
  // moderateFlaggedContent

  /** `moderateFlaggedContent` as intended: 404 for an unknown message;
      `dismiss` records the admin's dismissal; `delete` removes the message
      (`deleteOne`) and tells its conversation room; any other action is a
      400. */
  function ModerateOutcome(db: Db, admin: Id, messageId: Id, action: Option<string>, now: int): (o: Outcome<string>)
    ensures messageId !in db.messages ==> o == Outcome(Fail(404, "Message not found."), db, [])
    ensures messageId in db.messages && action != Some("dismiss") && action != Some("delete") ==>
      o == Outcome(Fail(400, "Invalid action."), db, [])
    ensures messageId in db.messages && action == Some("dismiss") ==>
      && o.db == db.(messages := db.messages[messageId :=
           db.messages[messageId].(adminAction := Some(AdminAction("dismissed", admin, now)))])
      && o.events == [] && o.reply == Ok(200, "Report dismissed.")
      && !Flagged(o.db.messages[messageId])
    ensures messageId in db.messages && action == Some("delete") ==>
      && o.db == db.(messages := db.messages - {messageId})
      && messageId !in o.db.messages
      && o.events == [Emit(Room(db.messages[messageId].conversationId),
                           MessageDeleted(messageId, db.messages[messageId].conversationId))]
      && o.reply == Ok(200, "Message deleted.")
  {
    if messageId !in db.messages then Answer(db, Raised(404, "Message not found."))
    else
      var m := db.messages[messageId];
      if action == Some("dismiss") then
        Outcome(Ok(200, "Report dismissed."),
                db.(messages := db.messages[messageId := m.(adminAction := Some(AdminAction("dismissed", admin, now)))]), [])
      else if action == Some("delete") then
        Outcome(Ok(200, "Message deleted."), db.(messages := db.messages - {messageId}),
                [Emit(Room(m.conversationId), MessageDeleted(messageId, m.conversationId))])
      else Answer(db, Raised(400, "Invalid action."))
  }

  /** `moderateFlaggedContent` as written, under Mongoose 7 and later:
      `message.remove()` is not a function there, so the delete action throws
      inside the `try` and the error handler answers 500, before the message
      is deleted and before the room is told. The other branches are
      `ModerateOutcome`'s. */
  function ModerateAsWritten(db: Db, admin: Id, messageId: Id, action: Option<string>, now: int): (o: Outcome<string>)
    ensures messageId in db.messages && action == Some("delete") ==> o == Outcome(Thrown, db, [])
    ensures !(messageId in db.messages && action == Some("delete")) ==>
      o == ModerateOutcome(db, admin, messageId, action, now)
  {
    if messageId in db.messages && action == Some("delete") then Outcome(Thrown, db, [])
    else ModerateOutcome(db, admin, messageId, action, now)
  }

  /** As written, deleting a flagged message answers 500 and leaves it
      stored and still listed as flagged; as intended it is gone. */
  lemma AsWrittenDeleteKeepsReport(db: Db, admin: Id, messageId: Id, now: int)
    requires messageId in db.messages && Flagged(db.messages[messageId])
    ensures var o := ModerateAsWritten(db, admin, messageId, Some("delete"), now);
      && o.reply == Thrown && o.events == []
      && messageId in o.db.messages && messageId in FlaggedContent(o.db)
    ensures messageId !in ModerateOutcome(db, admin, messageId, Some("delete"), now).db.messages
  {
  }

  /** After either moderation action the message is no longer listed. */
  lemma ModerationClosesReport(db: Db, admin: Id, messageId: Id, action: string, now: int)
    requires messageId in db.messages && (action == "dismiss" || action == "delete")
    ensures messageId !in FlaggedContent(ModerateOutcome(db, admin, messageId, Some(action), now).db)
  {
  }

  method ModerateFlaggedContent(srv: Server, admin: Id, messageId: Id, action: Option<string>, now: int)
    returns (reply: Reply<string>)
    modifies srv`db, srv`events
    ensures var o := ModerateOutcome(old(srv.db), admin, messageId, action, now);
      srv.db == o.db && reply == o.reply && srv.events == old(srv.events) + o.events
  {
    if messageId !in srv.db.messages {
      return Raised(404, "Message not found.");
    }
    var message := srv.db.messages[messageId];
    if action == Some("dismiss") {
      message := message.(adminAction := Some(AdminAction("dismissed", admin, now)));
      srv.db := srv.db.(messages := srv.db.messages[messageId := message]);
      reply := Ok(200, "Report dismissed.");
    } else if action == Some("delete") {
      var conversationId := message.conversationId;
      srv.db := srv.db.(messages := srv.db.messages - {messageId});
      srv.events := srv.events + [Emit(Room(conversationId), MessageDeleted(messageId, conversationId))];
      reply := Ok(200, "Message deleted.");
    } else {
      reply := Raised(400, "Invalid action.");
    }
  }

  // ---------------------------------------------------------------------
  // processVerificationRequest

  /** `processVerificationRequest`: 404 for an unknown user; `approve` and
      `reject` set the verified flag and status together and notify the
      user's socket; any other action is a 400 and nothing is saved. */
  function VerificationOutcome(db: Db, sockets: map<Id, SocketId>, userId: Id, action: Option<string>)
    : (o: Outcome<UserReply>)
    ensures userId !in db.users ==> o == Outcome(Fail(404, "User not found"), db, [])
    ensures userId in db.users && action != Some("approve") && action != Some("reject") ==>
      o == Outcome(Fail(400, "Invalid action provided."), db, [])
    ensures o.reply.Ok? <==> userId in db.users && (action == Some("approve") || action == Some("reject"))
    ensures o.reply.Ok? ==> userId in o.db.users
    ensures o.reply.Ok? ==>
      var u := o.db.users[userId];
      && o.db == db.(users := db.users[userId := u])
      && u == db.users[userId].(isVerified := u.isVerified, verificationStatus := u.verificationStatus)
      && (action == Some("approve") ==> u.isVerified && u.verificationStatus == "verified")
      && (action == Some("reject") ==> !u.isVerified && u.verificationStatus == "rejected")
      && o.events == ToUser(sockets, userId, VerificationStatusUpdate(u.verificationStatus))
      && o.reply.body.user == Redacted(u)
      && o.reply.body.message == "User verification has been " + (if action == Some("approve") then "approved" else "rejected") + "."
  {
    if userId !in db.users then Answer(db, Raised(404, "User not found"))
    else if action != Some("approve") && action != Some("reject") then Answer(db, Raised(400, "Invalid action provided."))
    else
      var approve := action == Some("approve");
      var u := db.users[userId].(isVerified := approve, verificationStatus := if approve then "verified" else "rejected");
      Outcome(Ok(200, UserReply("User verification has been " + (if approve then "approved" else "rejected") + ".", Redacted(u))),
              db.(users := db.users[userId := u]),
              ToUser(sockets, userId, VerificationStatusUpdate(u.verificationStatus)))
  }

  /** A verified user is exactly an approved one: the flag and the status
      move together. */
  lemma VerifiedIffApproved(db: Db, sockets: map<Id, SocketId>, userId: Id, action: Option<string>)
    requires VerificationOutcome(db, sockets, userId, action).reply.Ok?
    ensures var u := VerificationOutcome(db, sockets, userId, action).db.users[userId];
      u.isVerified <==> u.verificationStatus == "verified"
  {
  }

  method ProcessVerificationRequest(srv: Server, userId: Id, action: Option<string>)
    returns (reply: Reply<UserReply>)
    modifies srv`db, srv`events
    ensures var o := VerificationOutcome(old(srv.db), srv.sockets, userId, action);
      srv.db == o.db && reply == o.reply && srv.events == old(srv.events) + o.events
  {
    if userId !in srv.db.users {
      return Raised(404, "User not found");
    }
    var user := srv.db.users[userId];
    if action == Some("approve") {
      user := user.(isVerified := true, verificationStatus := "verified");
    } else if action == Some("reject") {
      user := user.(isVerified := false, verificationStatus := "rejected");
    } else {
      return Raised(400, "Invalid action provided.");
    }
    srv.db := srv.db.(users := srv.db.users[userId := user]);
    if userId in srv.sockets {
      srv.events := srv.events + [Emit(ToSocket(srv.sockets[userId]), VerificationStatusUpdate(user.verificationStatus))];
    }
    var outcome := if action == Some("approve") then "approved" else "rejected";
    reply := Ok(200, UserReply("User verification has been " + outcome + ".", Redacted(user)));
  }
}
