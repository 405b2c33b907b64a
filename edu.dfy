/** The study tools of controllers/eduController.js: the chat history handed
    to the quiz generator, the study planner, flashcards, community
    resources and the smart feed. */
module Edu {
  import opened Common
  import opened Text
  import opened Models
  import opened Store
  import opened Http
  import opened Ai
  import Communities

  // ---------------------------------------------------------------------
  // getChatHistoryForAI

  /** The default `limit` of `getChatHistoryForAI`, the only one used. */
  const HistoryLimit: nat := 20

  /** The text messages the history is built from: the conversation's
      newest `HistoryLimit`, oldest first. */
  function NewestTextIds(db: Db, conversationId: Id): (ids: seq<Id>)
    ensures |ids| <= HistoryLimit
    ensures Increasing(ids)
    ensures forall i :: 0 <= i < |ids| ==>
      && ids[i] in db.messages
      && db.messages[ids[i]].conversationId == conversationId
      && db.messages[ids[i]].messageType == "text"
  {
    LastN(ConversationTextIds(db, conversationId), HistoryLimit)
  }

  /** No text message of the conversation is left out in favour of an older
      one, and fewer than `HistoryLimit` are taken only when there are no
      more. */
  lemma NewestTextIdsAreNewest(db: Db, conversationId: Id, k: Id)
    requires k in db.messages && db.messages[k].conversationId == conversationId && db.messages[k].messageType == "text"
    requires k !in NewestTextIds(db, conversationId)
    ensures |NewestTextIds(db, conversationId)| == HistoryLimit
    ensures forall j :: 0 <= j < HistoryLimit ==> k < NewestTextIds(db, conversationId)[j]
  {
    var all := ConversationTextIds(db, conversationId);
    assert k in all;
    SuffixIsNewest(all, HistoryLimit, k);
  }

  /** Of an increasing list, an element outside the last n is smaller than
      each of them, and there are n of them. */
  lemma SuffixIsNewest(all: seq<nat>, n: nat, k: nat)
    requires Increasing(all) && k in all && k !in LastN(all, n)
    ensures |LastN(all, n)| == n
    ensures forall j :: 0 <= j < n ==> k < LastN(all, n)[j]
  {
    var ids := LastN(all, n);
    var p :| 0 <= p < |all| && all[p] == k;
    assert |ids| == |all| ==> ids == all;
    assert |ids| == n;
    forall q | |all| - n <= q < |all|
      ensures all[q] in ids
    {
      assert ids[q - (|all| - n)] == all[q];
    }
    forall j | 0 <= j < n
      ensures k < ids[j]
    {
      assert ids[j] == all[|all| - n + j];
    }
  }

  /** The "name: content" lines of the history; `None` when a selected
      message's sender no longer exists (reading the name of the null
      populate result throws). */
  function HistoryLinesForAI(db: Db, conversationId: Id): (r: Option<seq<string>>)
    ensures var ids := NewestTextIds(db, conversationId);
      r.None? <==> exists i :: 0 <= i < |ids| && db.messages[ids[i]].senderId !in db.users
    ensures var ids := NewestTextIds(db, conversationId);
      r.Some? ==>
        && |r.value| == |ids|
        && forall i :: 0 <= i < |ids| ==>
             r.value[i] == LineOf(db.users[db.messages[ids[i]].senderId].name, db.messages[ids[i]].content)
  {
    var ids := NewestTextIds(db, conversationId);
    var es := EntriesOf(db, ids);
    SendersOf(db, ids);
    NamedLines(es)
  }

  /** A populated entry has a sender exactly when the sender is stored, and
      then carries the sender's name. */
  lemma SendersOf(db: Db, ids: seq<Id>)
    requires forall i :: 0 <= i < |ids| ==> ids[i] in db.messages
    ensures forall i :: 0 <= i < |ids| ==>
      && (EntriesOf(db, ids)[i].sender.None? <==> db.messages[ids[i]].senderId !in db.users)
      && (EntriesOf(db, ids)[i].sender.Some? ==> EntriesOf(db, ids)[i].sender.value == db.users[db.messages[ids[i]].senderId].name)
      && EntriesOf(db, ids)[i].content == db.messages[ids[i]].content
  {
  }

  /** `getChatHistoryForAI(conversationId)`: the lines joined by newlines. */
  function ChatHistoryForAI(db: Db, conversationId: Id): (r: Option<string>)
    ensures r.Some? <==> HistoryLinesForAI(db, conversationId).Some?
  {
    var lines := HistoryLinesForAI(db, conversationId);
    if lines.None? then None else Some(Join(lines.value, "\n"))
  }

  // ---------------------------------------------------------------------
  // getQuizQuestions

  const NotEnoughForQuiz := "Not enough conversation history for a quiz."

  /** `getQuizQuestions`: 400 for a history under 100 UTF-16 units, before any
      model call; a history that cannot be built or a model failure is a
      500. `answer` is the model's parsed answer. */
  function GetQuizQuestions(db: Db, conversationId: Id, answer: Option<string>): (r: Reply<string>)
    ensures ChatHistoryForAI(db, conversationId).None? ==> r.Thrown?
    ensures ChatHistoryForAI(db, conversationId).Some? && Utf16Length(ChatHistoryForAI(db, conversationId).value) < 100 ==>
      r == Fail(400, NotEnoughForQuiz)
    ensures r.Ok? <==>
      ChatHistoryForAI(db, conversationId).Some? && Utf16Length(ChatHistoryForAI(db, conversationId).value) >= 100 && answer.Some?
    ensures r.Ok? ==> r == Ok(200, answer.value)
  {
    var history := ChatHistoryForAI(db, conversationId);
    if history.None? then Thrown
    else if Utf16Length(history.value) < 100 then Fail(400, NotEnoughForQuiz)
    else if answer.None? then Thrown
    else Ok(200, answer.value)
  }

  // ---------------------------------------------------------------------
  // updateStudyTask

  /** `updateStudyTask`: 404 for an unknown task, otherwise only
      `isCompleted` changes, to the value sent; a value left out is unset
      and reads back as the default `false`. */
  function UpdateTaskOutcome(db: Db, taskId: Id, isCompleted: Option<bool>): (o: Outcome<StudyTask>)
    ensures o.events == []
    ensures taskId !in db.tasks ==> o.reply == Fail(404, "Task not found") && o.db == db
    ensures taskId in db.tasks ==>
      var t := db.tasks[taskId].(isCompleted := isCompleted == Some(true));
      o.reply == Ok(200, t) && o.db == db.(tasks := db.tasks[taskId := t])
  {
    if taskId !in db.tasks then Answer(db, Fail(404, "Task not found"))
    else
      var t := db.tasks[taskId].(isCompleted := isCompleted == Some(true));
      Outcome(Ok(200, t), db.(tasks := db.tasks[taskId := t]), [])
  }

  /** Sending the same value twice leaves the store as sending it once. */
  lemma UpdateTaskIdempotent(db: Db, taskId: Id, isCompleted: Option<bool>)
    ensures var once := UpdateTaskOutcome(db, taskId, isCompleted).db;
      UpdateTaskOutcome(once, taskId, isCompleted).db == once
  {
    var once := UpdateTaskOutcome(db, taskId, isCompleted).db;
    if taskId in db.tasks {
      var t := once.tasks[taskId];
      assert t.(isCompleted := isCompleted == Some(true)) == t;
      assert once.tasks[taskId := t] == once.tasks;
    }
  }

  method UpdateStudyTask(srv: Server, taskId: Id, isCompleted: Option<bool>) returns (reply: Reply<StudyTask>)
    modifies srv`db
    ensures var o := UpdateTaskOutcome(old(srv.db), taskId, isCompleted); srv.db == o.db && reply == o.reply
  {
    if taskId !in srv.db.tasks {
      return Fail(404, "Task not found");
    }
    var task := srv.db.tasks[taskId];
    task := task.(isCompleted := isCompleted == Some(true));
    srv.db := srv.db.(tasks := srv.db.tasks[taskId := task]);
    reply := Ok(200, task);
  }

  // ---------------------------------------------------------------------
  // addFlashcard

  /** Every card listed in a deck is stored and belongs to that deck. */
  predicate DecksLinked(db: Db) {
    forall d, c :: d in db.decks && c in db.decks[d].cards ==> c in db.cards && db.cards[c].deck == d
  }

  /** `addFlashcard`: 404 for an unknown deck; a card without a front or a
      back fails validation (500) and nothing changes; otherwise the card is
      stored and its id appended to the deck. */
  function AddFlashcardOutcome(db: Db, deckId: Id, front: Option<string>, back: Option<string>): (o: Outcome<Flashcard>)
    ensures o.events == []
    ensures deckId !in db.decks ==> o.reply == Fail(404, "Deck not found") && o.db == db
    ensures deckId in db.decks && (!Truthy(front) || !Truthy(back)) ==> o.reply.Thrown? && o.db == db
    ensures o.reply.Ok? <==> deckId in db.decks && Truthy(front) && Truthy(back)
    ensures o.reply.Ok? ==>
      var cardId := NextId(db.cards);
      var deck := db.decks[deckId];
      && o.reply == Ok(201, Flashcard(deckId, front.value, back.value))
      && o.db == db.(cards := db.cards[cardId := Flashcard(deckId, front.value, back.value)],
                     decks := db.decks[deckId := deck.(cards := deck.cards + [cardId])])
  {
    if deckId !in db.decks then Answer(db, Fail(404, "Deck not found"))
    else if !Truthy(front) || !Truthy(back) then Answer(db, Thrown)
    else
      var cardId := NextId(db.cards);
      var card := Flashcard(deckId, front.value, back.value);
      var deck := db.decks[deckId];
      Outcome(Ok(201, card), db.(cards := db.cards[cardId := card], decks := db.decks[deckId := deck.(cards := deck.cards + [cardId])]), [])
  }

  /** Adding a card keeps every deck's cards stored and pointing back. */
  lemma AddFlashcardKeepsLinks(db: Db, deckId: Id, front: Option<string>, back: Option<string>)
    requires DecksLinked(db)
    ensures DecksLinked(AddFlashcardOutcome(db, deckId, front, back).db)
  {
    var o := AddFlashcardOutcome(db, deckId, front, back);
    if o.reply.Ok? {
      var cardId := NextId(db.cards);
      forall d, c | d in o.db.decks && c in o.db.decks[d].cards
        ensures c in o.db.cards && o.db.cards[c].deck == d
      {
        if c != cardId || d != deckId {
          assert c in db.decks[d].cards;
          assert c in db.cards && o.db.cards[c] == db.cards[c];
        }
      }
    }
  }

  method AddFlashcard(srv: Server, deckId: Id, front: Option<string>, back: Option<string>) returns (reply: Reply<Flashcard>)
    modifies srv`db
    ensures var o := AddFlashcardOutcome(old(srv.db), deckId, front, back); srv.db == o.db && reply == o.reply
  {
    if deckId !in srv.db.decks {
      return Fail(404, "Deck not found");
    }
    var deck := srv.db.decks[deckId];
    if !Truthy(front) || !Truthy(back) {
      return Thrown;
    }
    var card := Flashcard(deckId, front.value, back.value);
    var cardId := NextId(srv.db.cards);
    deck := deck.(cards := deck.cards + [cardId]);
    srv.db := srv.db.(cards := srv.db.cards[cardId := card], decks := srv.db.decks[deckId := deck]);
    reply := Ok(201, card);
  }

  // ---------------------------------------------------------------------
  // createCommunityResource

  /** The file the upload middleware stored for the request. */
  datatype SavedFile = SavedFile(path: string, originalname: string, mimetype: string)

  /** The resource kind of a mimetype. */
  function ResourceType(mimetype: string): (t: FileType)
    ensures t == "video" <==> StartsWith(mimetype, "video")
    ensures t == "image" <==> !StartsWith(mimetype, "video") && StartsWith(mimetype, "image")
    ensures t == "document" <==> !StartsWith(mimetype, "video") && !StartsWith(mimetype, "image")
  {
    if StartsWith(mimetype, "video") then "video" else if StartsWith(mimetype, "image") then "image" else "document"
  }

  /** The url of a stored file: '/' and its path, with forward slashes. */
  function FileUrl(path: string): (url: string)
    ensures |url| == |path| + 1 && url[0] == '/'
    ensures '\\' !in url
    ensures forall i :: 0 <= i < |path| ==> url[i + 1] == if path[i] == '\\' then '/' else path[i]
  {
    ForwardSlashes("/" + path)
  }

  /** `createCommunityResource`: 400 without a file; a title that is blank
      once trimmed or a file without a name fails validation (500);
      otherwise the resource is stored, uploaded by the caller. The
      community id is taken from the path as it is, without a lookup. */
  function CreateResourceOutcome(db: Db, me: Id, communityId: Id, title: Option<string>, description: Option<string>,
                                 file: Option<SavedFile>): (o: Outcome<Resource>)
    ensures o.events == []
    ensures !o.reply.Ok? ==> o.db == db
    ensures file.None? ==> o.reply == Fail(400, "File is required")
    ensures o.reply.Ok? <==> file.Some? && title.Some? && Trim(title.value) != [] && file.value.originalname != []
    ensures o.reply.Ok? ==>
      var r := o.reply.body;
      && o.reply.status == 201
      && r == Resource(Trim(title.value), description, FileUrl(file.value.path), file.value.originalname,
                       ResourceType(file.value.mimetype), me, communityId)
      && o.db == db.(resources := db.resources[NextId(db.resources) := r])
  {
    if file.None? then Answer(db, Fail(400, "File is required"))
    else if title.None? || Trim(title.value) == [] || file.value.originalname == [] then Answer(db, Thrown)
    else
      var r := Resource(Trim(title.value), description, FileUrl(file.value.path), file.value.originalname,
                        ResourceType(file.value.mimetype), me, communityId);
      Outcome(Ok(201, r), db.(resources := db.resources[NextId(db.resources) := r]), [])
  }

  method CreateCommunityResource(srv: Server, me: Id, communityId: Id, title: Option<string>,
                                 description: Option<string>, file: Option<SavedFile>) returns (reply: Reply<Resource>)
    modifies srv`db
    ensures var o := CreateResourceOutcome(old(srv.db), me, communityId, title, description, file);
      srv.db == o.db && reply == o.reply
  {
    if file.None? {
      return Fail(400, "File is required");
    }
    var kind := ResourceType(file.value.mimetype);
    if title.None? || Trim(title.value) == [] || file.value.originalname == [] {
      return Thrown;
    }
    var r := Resource(Trim(title.value), description, FileUrl(file.value.path), file.value.originalname, kind, me, communityId);
    srv.db := srv.db.(resources := srv.db.resources[NextId(srv.db.resources) := r]);
    reply := Ok(201, r);
  }

  // ---------------------------------------------------------------------
  // getSmartFeed

  const FeedSize: nat := 5

  /** The subjects of the caller's academic profile (none without one). */
  function SubjectsOf(u: User): seq<string> {
    if u.academicProfile.Some? then u.academicProfile.value.subjects else []
  }

  function LowerAll(ss: seq<string>): (r: seq<string>)
    ensures |r| == |ss| && forall i :: 0 <= i < |ss| ==> r[i] == ToLower(ss[i])
  {
    if ss == [] then [] else [ToLower(ss[0])] + LowerAll(ss[1..])
  }

  /** `new RegExp(subjects.join('|'), 'i')` tested on the name or the
      description: each subject is one alternative, compared without regard
      to (ASCII) case. */
  predicate AboutSubjects(subjects: seq<string>, c: Community) {
    RegexTest(LowerAll(subjects), ToLower(c.name)) || RegexTest(LowerAll(subjects), ToLower(c.description))
  }

  /** The `$or` condition, or every community when there are no subjects. */
  predicate Relevant(u: User, c: Community) {
    SubjectsOf(u) == [] || AboutSubjects(SubjectsOf(u), c)
  }

  /** `.limit(n)` over a list in store order. */
  function FirstN<T>(s: seq<T>, n: nat): (r: seq<T>)
    ensures |r| == if |s| < n then |s| else n
    ensures r == s[..|r|]
  {
    if |s| <= n then s else s[..n]
  }


  /** The recommendations as the handler computes them. The `$nin` filter
      reads `user.communities`, a field the user record does not have, so it
      excludes nothing; the fallback's sort key `memberCount` is not stored
      either, so both branches keep store order. */
  function SmartFeedAsWritten(db: Db, u: User): (r: seq<Communities.CommunityView>)
    ensures |r| <= FeedSize
    ensures forall i :: 0 <= i < |r| ==>
      && r[i].id in db.communities && Relevant(u, db.communities[r[i].id])
      && r[i].community == db.communities[r[i].id]
    ensures forall i, j :: 0 <= i < j < |r| ==> r[i].id < r[j].id
    ensures |r| == |AsWrittenIds(db, u)| && forall i :: 0 <= i < |r| ==> r[i].id == AsWrittenIds(db, u)[i]
  {
    Communities.Views(db, AsWrittenIds(db, u))
  }

  /** The ids the feed as written shows: the first five relevant
      communities, members or not. */
  function AsWrittenIds(db: Db, u: User): (ids: seq<Id>)
    ensures |ids| <= FeedSize
    ensures Increasing(ids)
    ensures forall i :: 0 <= i < |ids| ==> ids[i] in db.communities && Relevant(u, db.communities[ids[i]])
    ensures |ids| < FeedSize ==> ids == RelevantIds(db, u)
  {
    var all := RelevantIds(db, u);
    var ids := FirstN(all, FeedSize);
    assert forall i :: 0 <= i < |ids| ==> ids[i] == all[i];
    assert Increasing(ids) by {
      forall i, j | 0 <= i < j < |ids|
        ensures ids[i] < ids[j]
      {
        assert ids[i] == all[i] && ids[j] == all[j];
      }
    }
    assert forall i :: 0 <= i < |ids| ==> ids[i] in db.communities && Relevant(u, db.communities[ids[i]]) by {
      forall i | 0 <= i < |ids|
        ensures ids[i] in db.communities && Relevant(u, db.communities[ids[i]])
      {
        assert ids[i] == all[i] && all[i] in all;
      }
    }
    ids
  }

  /** The relevant communities, in store order. */
  function RelevantIds(db: Db, u: User): (ids: seq<Id>)
    ensures Increasing(ids)
    ensures forall k :: k in ids <==> k in db.communities && Relevant(u, db.communities[k])
  {
    IdsWhere(db.communities, RelevantTo(u))
  }

  function RelevantTo(u: User): Community -> bool {
    (c: Community) => Relevant(u, c)
  }

  /** A short feed as written lists every relevant community. */
  lemma AsWrittenShortFeedIsComplete(db: Db, u: User, k: Id)
    requires k in db.communities && Relevant(u, db.communities[k])
    requires |SmartFeedAsWritten(db, u)| < FeedSize
    ensures exists i :: 0 <= i < |SmartFeedAsWritten(db, u)| && SmartFeedAsWritten(db, u)[i].id == k
  {
    var all := RelevantIds(db, u);
    var r := SmartFeedAsWritten(db, u);
    assert AsWrittenIds(db, u) == all;
    assert k in all;
    var i :| 0 <= i < |all| && all[i] == k;
    assert r[i].id == k;
  }

  /** The as-written feed recommends communities the caller already belongs
      to: in a store whose only community counts the caller as a member, a
      caller without subjects is recommended that community. */
  lemma AsWrittenRecommendsJoined(db: Db, u: User, me: Id, id: Id, c: Community)
    requires db.communities == map[id := c] && me in c.members && SubjectsOf(u) == []
    ensures exists i :: (0 <= i < |SmartFeedAsWritten(db, u)| &&
      SmartFeedAsWritten(db, u)[i].id == id && me in SmartFeedAsWritten(db, u)[i].community.members)
  {
    var ids := RelevantIds(db, u);
    assert id in ids;
    IncreasingEqual(ids, [id]);
    var r := SmartFeedAsWritten(db, u);
    assert AsWrittenIds(db, u) == ids;
    assert r[0].id == id;
  }

  /** The relevant communities the caller is not a member of, in store
      order. */
  predicate Eligible(db: Db, u: User, me: Id, k: Id) {
    k in db.communities && me !in db.communities[k].members && Relevant(u, db.communities[k])
  }

  function Candidates(db: Db, u: User, me: Id): (ids: seq<Id>)
    ensures Increasing(ids)
    ensures forall k :: k in ids <==> Eligible(db, u, me, k)
  {
    IdsWhere(db.communities, Recommendable(u, me))
  }

  function Recommendable(u: User, me: Id): Community -> bool {
    (c: Community) => me !in c.members && Relevant(u, c)
  }

  /** The ids the feed shows: the first five candidates. */
  function FeedIds(db: Db, u: User, me: Id): (ids: seq<Id>)
    ensures |ids| <= FeedSize
    ensures Increasing(ids)
    ensures forall i :: 0 <= i < |ids| ==> Eligible(db, u, me, ids[i])
    ensures |ids| < FeedSize ==> ids == Candidates(db, u, me)
  {
    var all := Candidates(db, u, me);
    var ids := FirstN(all, FeedSize);
    forall i | 0 <= i < |ids|
      ensures Eligible(db, u, me, ids[i])
    {
      assert ids[i] == all[i] && all[i] in all;
    }
    ids
  }

  /** The recommendations the exclusion evidently intends: at most five
      relevant communities, in store order, none of which the caller is a
      member of. */
  function SmartFeed(db: Db, u: User, me: Id): (r: seq<Communities.CommunityView>)
    ensures |r| <= FeedSize
    ensures forall i :: 0 <= i < |r| ==>
      && Eligible(db, u, me, r[i].id)
      && r[i].community == db.communities[r[i].id]
      && r[i].memberCount == |r[i].community.members|
    ensures forall i, j :: 0 <= i < j < |r| ==> r[i].id < r[j].id
    ensures |r| == |FeedIds(db, u, me)| && forall i :: 0 <= i < |r| ==> r[i].id == FeedIds(db, u, me)[i]
  {
    Communities.Views(db, FeedIds(db, u, me))
  }

  /** A short feed is complete: when fewer than five communities are
      recommended, every relevant community the caller is not in is among
      them. */
  lemma ShortFeedIsComplete(db: Db, u: User, me: Id, k: Id)
    requires Eligible(db, u, me, k)
    requires |SmartFeed(db, u, me)| < FeedSize
    ensures exists i :: 0 <= i < |SmartFeed(db, u, me)| && SmartFeed(db, u, me)[i].id == k
  {
    var all := Candidates(db, u, me);
    var r := SmartFeed(db, u, me);
    assert FeedIds(db, u, me) == all;
    assert k in all;
    var i :| 0 <= i < |all| && all[i] == k;
    assert r[i].id == k;
  }
}
