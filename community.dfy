/** Communities (controllers/communityController.js): creating a community
    together with its group chat, listing communities and joining one. */
module Communities {
  import opened Common
  import opened Text
  import opened Models
  import opened Store
  import opened Http

  const DuplicateName := "A community with this name already exists."
  const DefaultCategory: Category := "Social Club"

  /** The schema's checks on a new community: a name that is not blank once
      trimmed, a non-empty description, and a listed category when one is
      given. A failed check throws before anything is inserted. */
  predicate Valid(name: Option<string>, description: Option<string>, category: Option<string>) {
    && name.Some? && Trim(name.value) != []
    && description.Some? && description.value != []
    && (category.None? || category.value in Categories)
  }

  function CategoryOf(category: Option<string>): Category
    requires category.None? || category.value in Categories
  {
    if category.Some? then category.value else DefaultCategory
  }

  function FindCommunityByName(communities: map<Id, Community>, name: string): (r: Option<Id>)
    ensures r.None? <==> forall k :: k in communities ==> communities[k].name != name
    ensures r.Some? ==> r.value in communities && communities[r.value].name == name
  {
    First(communities, (c: Community) => c.name == name)
  }

  /** The group chat made for a community: named like it, the creator its
      only participant and its admin. */
  function CommunityChat(me: Id, name: Option<string>): (c: Conversation)
    ensures c.participants == [me] && c.admin == Some(me) && c.isGroup && c.isCommunityChat
    ensures c.name == name && c.communityId.None?
    ensures !c.isCognitive && !c.isRoleplayRoom && !c.isWhisperThread
  {
    NewConversation([me]).(name := name, isGroup := true, admin := Some(me), isCommunityChat := true)
  }

  /** Every community points at a stored conversation that points back. */
  predicate Linked(db: Db) {
    forall c :: c in db.communities ==>
      db.communities[c].conversation in db.conversations &&
      db.conversations[db.communities[c].conversation].communityId == Some(c)
  }

  /** The unique index on the community name. */
  predicate UniqueNames(communities: map<Id, Community>) {
    forall a, b :: a in communities && b in communities && a != b ==> communities[a].name != communities[b].name
  }

  /** The community record a valid request creates: trimmed name, the
      creator as its only member, the category given or the default. */
  function NewCommunity(me: Id, name: Option<string>, description: Option<string>, category: Option<string>,
                        conversation: Id): (c: Community)
    requires Valid(name, description, category)
    ensures c.name == Trim(name.value) && c.description == description.value
    ensures c.creator == me && c.members == [me] && c.conversation == conversation
    ensures category.Some? ==> c.category == category.value
    ensures category.None? ==> c.category == DefaultCategory
  {
    Community(Trim(name.value), description.value, me, CategoryOf(category), conversation, [me])
  }

  /** `createCommunity`. The chat is created first; a community that fails
      validation (500) or whose trimmed name is taken (400) leaves that chat
      behind without a community. On success the two records point at each
      other. */
  function CreateCommunityOutcome(db: Db, me: Id, name: Option<string>, description: Option<string>,
                                  category: Option<string>): (o: Outcome<Community>)
    ensures o.events == []
    ensures o.db == db.(conversations := o.db.conversations, communities := o.db.communities)
    ensures !o.reply.Ok? ==> o.db.conversations == db.conversations[NextId(db.conversations) := CommunityChat(me, name)]
    ensures o.reply.Ok? ==> o.db.conversations == db.conversations[NextId(db.conversations) :=
      CommunityChat(me, name).(communityId := Some(NextId(db.communities)))]
    ensures o.reply.Ok? <==> Valid(name, description, category) && FindCommunityByName(db.communities, Trim(name.value)).None?
    ensures !Valid(name, description, category) ==> o.reply.Thrown?
    ensures Valid(name, description, category) && FindCommunityByName(db.communities, Trim(name.value)).Some? ==>
      o.reply == Fail(400, DuplicateName)
    ensures !o.reply.Ok? ==> o.db.communities == db.communities
    ensures o.reply.Ok? ==>
      && o.reply == Ok(201, NewCommunity(me, name, description, category, NextId(db.conversations)))
      && o.db.communities == db.communities[NextId(db.communities) := o.reply.body]
  {
    var convId := NextId(db.conversations);
    var conv := CommunityChat(me, name);
    var db1 := db.(conversations := db.conversations[convId := conv]);
    if !Valid(name, description, category) then Answer(db1, Thrown)
    else if FindCommunityByName(db.communities, Trim(name.value)).Some? then Answer(db1, Fail(400, DuplicateName))
    else
      var cid := NextId(db.communities);
      var c := NewCommunity(me, name, description, category, convId);
      Outcome(Ok(201, c),
              db.(communities := db.communities[cid := c],
                  conversations := db.conversations[convId := conv.(communityId := Some(cid))]),
              [])
  }

  /** A new chat nobody points at keeps the links. */
  lemma AddChatKeepsLinks(db: Db, convId: Id, conv: Conversation)
    requires Linked(db) && convId !in db.conversations
    ensures Linked(db.(conversations := db.conversations[convId := conv]))
  {
    var db' := db.(conversations := db.conversations[convId := conv]);
    forall c | c in db'.communities
      ensures db'.communities[c].conversation in db'.conversations
      ensures db'.conversations[db'.communities[c].conversation].communityId == Some(c)
    {
      var k := db.communities[c].conversation;
      assert k in db.conversations;
      assert db'.conversations[k] == db.conversations[k];
    }
  }

  /** A new community with a new chat that point at each other keep the
      links. */
  lemma AddPairKeepsLinks(db: Db, cid: Id, community: Community, convId: Id, conv: Conversation)
    requires Linked(db) && convId !in db.conversations && cid !in db.communities
    requires community.conversation == convId && conv.communityId == Some(cid)
    ensures Linked(db.(communities := db.communities[cid := community],
                       conversations := db.conversations[convId := conv]))
  {
    var db' := db.(communities := db.communities[cid := community],
                   conversations := db.conversations[convId := conv]);
    forall c | c in db'.communities
      ensures db'.communities[c].conversation in db'.conversations
      ensures db'.conversations[db'.communities[c].conversation].communityId == Some(c)
    {
      if c != cid {
        var k := db.communities[c].conversation;
        assert db'.communities[c] == db.communities[c];
        assert k in db.conversations;
        assert db'.conversations[k] == db.conversations[k];
      }
    }
  }

  /** Creating a community keeps every community linked to its chat,
      whether or not it succeeds. */
  lemma CreateKeepsLinks(db: Db, me: Id, name: Option<string>, description: Option<string>, category: Option<string>)
    requires Linked(db)
    ensures Linked(CreateCommunityOutcome(db, me, name, description, category).db)
  {
    var o := CreateCommunityOutcome(db, me, name, description, category);
    var convId := NextId(db.conversations);
    var conv := CommunityChat(me, name);
    if o.reply.Ok? {
      var cid := NextId(db.communities);
      AddPairKeepsLinks(db, cid, o.reply.body, convId, conv.(communityId := Some(cid)));
      assert o.db == db.(communities := db.communities[cid := o.reply.body],
                         conversations := db.conversations[convId := conv.(communityId := Some(cid))]);
    } else {
      AddChatKeepsLinks(db, convId, conv);
      assert o.db == db.(conversations := db.conversations[convId := conv]);
    }
  }

  /** Creating a community keeps community names unique. */
  lemma CreateKeepsNamesUnique(db: Db, me: Id, name: Option<string>, description: Option<string>, category: Option<string>)
    requires UniqueNames(db.communities)
    ensures UniqueNames(CreateCommunityOutcome(db, me, name, description, category).db.communities)
  {
    var o := CreateCommunityOutcome(db, me, name, description, category);
    if o.reply.Ok? {
      var cid := NextId(db.communities);
      forall a, b | a in o.db.communities && b in o.db.communities && a != b
        ensures o.db.communities[a].name != o.db.communities[b].name
      {
        if a == cid {
          assert b in db.communities;
        } else if b == cid {
          assert a in db.communities;
        }
      }
    }
  }

  method CreateCommunity(srv: Server, me: Id, name: Option<string>, description: Option<string>, category: Option<string>)
    returns (reply: Reply<Community>)
    modifies srv`db
    ensures var o := CreateCommunityOutcome(old(srv.db), me, name, description, category);
      srv.db == o.db && reply == o.reply
  {
    var convId := NextId(srv.db.conversations);
    var conv := CommunityChat(me, name);
    if !Valid(name, description, category) {
      srv.db := srv.db.(conversations := srv.db.conversations[convId := conv]);
      return Thrown;
    }
    var trimmed := Trim(name.value);
    if FindCommunityByName(srv.db.communities, trimmed).Some? {
      srv.db := srv.db.(conversations := srv.db.conversations[convId := conv]);
      return Fail(400, DuplicateName);
    }
    var cid := NextId(srv.db.communities);
    var community := NewCommunity(me, name, description, category, convId);
    srv.db := srv.db.(communities := srv.db.communities[cid := community],
                      conversations := srv.db.conversations[convId := conv.(communityId := Some(cid))]);
    reply := Ok(201, community);
  }

  // ---------------------------------------------------------------------
  // getCommunities

  /** The populated creator: id and name. */
  datatype CreatorRef = CreatorRef(id: Id, name: string)

  datatype CommunityView = CommunityView(id: Id, community: Community, creator: Option<CreatorRef>, memberCount: nat)

  function ViewOf(users: map<Id, User>, id: Id, c: Community): CommunityView {
    CommunityView(id, c, if c.creator in users then Some(CreatorRef(c.creator, users[c.creator].name)) else None,
                  |c.members|)
  }

  /** Every community id, newest first. */
  function NewestFirst(db: Db): (r: seq<Id>)
    ensures Decreasing(r)
    ensures forall k :: k in r <==> k in db.communities
    ensures forall i :: 0 <= i < |r| ==> r[i] in db.communities
  {
    var ids := IdsWhere(db.communities, (c: Community) => true);
    LatestDecreasing(ids, |ids|);
    LatestAll(ids);
    var r := Latest(ids, |ids|);
    assert forall i :: 0 <= i < |r| ==> r[i] in r;
    r
  }

  /** The listed form of the given communities, in that order. */
  function Views(db: Db, ids: seq<Id>): (r: seq<CommunityView>)
    requires forall i :: 0 <= i < |ids| ==> ids[i] in db.communities
    ensures |r| == |ids|
    ensures forall i :: 0 <= i < |r| ==> r[i] == ViewOf(db.users, ids[i], db.communities[ids[i]])
    ensures forall i :: 0 <= i < |r| ==>
      && r[i].id == ids[i]
      && r[i].community == db.communities[ids[i]]
      && r[i].memberCount == |r[i].community.members|
      && (r[i].creator.Some? <==> r[i].community.creator in db.users)
  {
    seq(|ids|, i requires 0 <= i < |ids| => ViewOf(db.users, ids[i], db.communities[ids[i]]))
  }

  /** `getCommunities`: every community, newest first, with its creator's
      name (null once the creator is gone) and its member count. */
  function GetCommunities(db: Db): (r: seq<CommunityView>)
    ensures forall i :: 0 <= i < |r| ==>
      && r[i].id in db.communities
      && r[i].community == db.communities[r[i].id]
      && r[i].memberCount == |r[i].community.members|
      && (r[i].creator.Some? <==> r[i].community.creator in db.users)
    ensures forall i, j :: 0 <= i < j < |r| ==> r[i].id > r[j].id
  {
    var ids := NewestFirst(db);
    Views(db, ids)
  }

  /** Every community is listed. */
  lemma EveryCommunityListed(db: Db, c: Id)
    requires c in db.communities
    ensures exists i :: 0 <= i < |GetCommunities(db)| && GetCommunities(db)[i].id == c
  {
    var ids := NewestFirst(db);
    var r := GetCommunities(db);
    assert r == Views(db, ids);
    var i :| 0 <= i < |ids| && ids[i] == c;
    assert r[i] == ViewOf(db.users, ids[i], db.communities[ids[i]]);
  }

  // ---------------------------------------------------------------------
  // joinCommunity

  const Joined := "Successfully joined community."

  /** `joinCommunity`: 404 for an unknown community; otherwise the user
      becomes a member (appended only when absent) and a participant of the
      community chat (set semantics; nothing happens when the chat is
      gone). */
  function JoinOutcome(db: Db, me: Id, id: Id): (o: Outcome<string>)
    ensures o.events == []
    ensures id !in db.communities ==> o.reply == Fail(404, "Community not found.") && o.db == db
    ensures id in db.communities ==>
      var c := db.communities[id];
      && o.reply == Ok(200, Joined)
      && o.db.communities == db.communities[id := c.(members := AddToSet(c.members, me))]
      && (c.conversation in db.conversations ==>
            o.db.conversations == db.conversations[c.conversation :=
              db.conversations[c.conversation].(participants := AddToSet(db.conversations[c.conversation].participants, me))])
      && (c.conversation !in db.conversations ==> o.db.conversations == db.conversations)
      && o.db == db.(communities := o.db.communities, conversations := o.db.conversations)
  {
    if id !in db.communities then Answer(db, Raised(404, "Community not found."))
    else
      var c := db.communities[id];
      var communities := db.communities[id := c.(members := AddToSet(c.members, me))];
      var conversations :=
        if c.conversation in db.conversations then
          var conv := db.conversations[c.conversation];
          db.conversations[c.conversation := conv.(participants := AddToSet(conv.participants, me))]
        else db.conversations;
      Outcome(Ok(200, Joined), db.(communities := communities, conversations := conversations), [])
  }

  /** Joining twice leaves the store as joining once. */
  lemma JoinIdempotent(db: Db, me: Id, id: Id)
    ensures var once := JoinOutcome(db, me, id).db;
      JoinOutcome(once, me, id).db == once
  {
    var once := JoinOutcome(db, me, id).db;
    if id in db.communities {
      var c := once.communities[id];
      assert c.conversation == db.communities[id].conversation;
      assert me in c.members;
      assert c.(members := AddToSet(c.members, me)) == c;
      assert once.communities[id := c] == once.communities;
      if c.conversation in once.conversations {
        var conv := once.conversations[c.conversation];
        assert me in conv.participants;
        assert conv.(participants := AddToSet(conv.participants, me)) == conv;
        assert once.conversations[c.conversation := conv] == once.conversations;
      }
    }
  }

  /** After joining, the user is a member without duplicates, and a
      participant of the community chat when it exists. */
  lemma JoinMakesMember(db: Db, me: Id, id: Id)
    requires id in db.communities && NoDup(db.communities[id].members)
    ensures var o := JoinOutcome(db, me, id).db;
      var conv := db.communities[id].conversation;
      && me in o.communities[id].members
      && NoDup(o.communities[id].members)
      && (forall u :: u in o.communities[id].members <==> u in db.communities[id].members || u == me)
      && (conv in db.conversations ==> me in o.conversations[conv].participants)
  {
  }

  /** Joining keeps every community linked to its chat. */
  lemma JoinKeepsLinks(db: Db, me: Id, id: Id)
    requires Linked(db)
    ensures Linked(JoinOutcome(db, me, id).db)
  {
    var o := JoinOutcome(db, me, id).db;
    forall c | c in o.communities
      ensures o.communities[c].conversation in o.conversations
      ensures o.conversations[o.communities[c].conversation].communityId == Some(c)
    {
      assert o.communities[c].conversation == db.communities[c].conversation;
    }
  }

  method JoinCommunity(srv: Server, me: Id, id: Id) returns (reply: Reply<string>)
    modifies srv`db
    ensures var o := JoinOutcome(old(srv.db), me, id); srv.db == o.db && reply == o.reply
  {
    if id !in srv.db.communities {
      return Raised(404, "Community not found.");
    }
    var community := srv.db.communities[id];
    if me !in community.members {
      community := community.(members := community.members + [me]);
      srv.db := srv.db.(communities := srv.db.communities[id := community]);
    }
    if community.conversation in srv.db.conversations {
      var conv := srv.db.conversations[community.conversation];
      conv := conv.(participants := AddToSet(conv.participants, me));
      srv.db := srv.db.(conversations := srv.db.conversations[community.conversation := conv]);
    }
    reply := Ok(200, Joined);
  }
}
