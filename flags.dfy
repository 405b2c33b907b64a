/** Feature flags and the site settings singleton:
    controllers/featureFlagController.js and controllers/settingsController.js. */
module Flags {
  import opened Common
  import opened Models
  import opened Store
  import opened Http
  import Dispatch

  // ---------------------------------------------------------------------
  // Listings

  /** A flag's name, or the empty name for an id that is not stored. */
  function NameOf(flags: map<Id, FeatureFlag>, id: Id): string {
    if id in flags then flags[id].name else ""
  }

  /** `.sort({ name: 1 })`: binary string order of the names. */
  function ByName(flags: map<Id, FeatureFlag>): (Id, Id) -> bool {
    (a: Id, b: Id) => LexLe(NameOf(flags, a), NameOf(flags, b))
  }

  lemma ByNameIsPreorder(flags: map<Id, FeatureFlag>)
    ensures TotalPreorder(ByName(flags))
  {
    forall a, b ensures ByName(flags)(a, b) || ByName(flags)(b, a) {
      LexTotal(NameOf(flags, a), NameOf(flags, b));
    }
    forall a, b, c | ByName(flags)(a, b) && ByName(flags)(b, c) ensures ByName(flags)(a, c) {
      LexTransitive(NameOf(flags, a), NameOf(flags, b), NameOf(flags, c));
    }
  }

  datatype FlagEntry = FlagEntry(id: Id, flag: FeatureFlag)

  /** The ids of all flags, ordered by name. */
  function AdminOrder(flags: map<Id, FeatureFlag>): (order: seq<Id>)
    ensures multiset(order) == multiset(SortedIds(flags.Keys))
    ensures forall i :: 0 <= i < |order| ==> order[i] in flags
  {
    var ids := SortedIds(flags.Keys);
    var order := SortBy(ids, ByName(flags));
    forall i | 0 <= i < |order| ensures order[i] in flags {
      assert order[i] in multiset(ids);
    }
    order
  }

  /** The stored flags listed in the given id order. */
  function Entries(flags: map<Id, FeatureFlag>, ids: seq<Id>): (r: seq<FlagEntry>)
    requires forall i :: 0 <= i < |ids| ==> ids[i] in flags
    ensures |r| == |ids|
    ensures forall i :: 0 <= i < |ids| ==> r[i] == FlagEntry(ids[i], flags[ids[i]])
    ensures EntryIds(r) == ids
  {
    var r := seq(|ids|, i requires 0 <= i < |ids| => FlagEntry(ids[i], flags[ids[i]]));
    assert EntryIds(r) == ids;
    r
  }

  /** `getFeatureFlagsAdmin`: every stored flag, whole, ordered by name. */
  function AdminFlags(flags: map<Id, FeatureFlag>): (r: seq<FlagEntry>)
    ensures multiset(EntryIds(r)) == multiset(SortedIds(flags.Keys))
    ensures forall i :: 0 <= i < |r| ==> r[i].id in flags && r[i].flag == flags[r[i].id]
  {
    Entries(flags, AdminOrder(flags))
  }

  function EntryIds(r: seq<FlagEntry>): (ids: seq<Id>)
    ensures |ids| == |r| && forall i :: 0 <= i < |r| ==> ids[i] == r[i].id
  {
    seq(|r|, i requires 0 <= i < |r| => r[i].id)
  }

  /** The admin listing is in ascending name order. */
  lemma AdminFlagsByName(flags: map<Id, FeatureFlag>)
    ensures var r := AdminFlags(flags);
      forall i, j :: 0 <= i < j < |r| ==> LexLe(r[i].flag.name, r[j].flag.name)
  {
    var order := AdminOrder(flags);
    AdminOrderSorted(flags);
    var r := AdminFlags(flags);
    assert EntryIds(r) == order;
    forall i, j | 0 <= i < j < |r| ensures LexLe(r[i].flag.name, r[j].flag.name) {
      assert ByName(flags)(order[i], order[j]);
      assert NameOf(flags, order[i]) == r[i].flag.name;
      assert NameOf(flags, order[j]) == r[j].flag.name;
    }
  }

  lemma AdminOrderSorted(flags: map<Id, FeatureFlag>)
    ensures SortedBy(AdminOrder(flags), ByName(flags))
  {
    ByNameIsPreorder(flags);
    SortBySorted(SortedIds(flags.Keys), ByName(flags));
  }

  /** A flag as the public listing shows it (`select('name isEnabled')`). */
  datatype PublicFlag = PublicFlag(id: Id, name: string, isEnabled: bool)

  function PublicIds(r: seq<PublicFlag>): (ids: seq<Id>)
    ensures |ids| == |r| && forall i :: 0 <= i < |r| ==> ids[i] == r[i].id
  {
    seq(|r|, i requires 0 <= i < |r| => r[i].id)
  }

  /** `getFeatureFlagsPublic`: every flag, in store order, reduced to its
      name and switch; descriptions stay private. */
  function PublicFlags(flags: map<Id, FeatureFlag>): (r: seq<PublicFlag>)
    ensures PublicIds(r) == SortedIds(flags.Keys)
    ensures forall id :: id in flags <==> id in PublicIds(r)
    ensures forall i :: 0 <= i < |r| ==>
      r[i].id in flags && r[i].name == flags[r[i].id].name && r[i].isEnabled == flags[r[i].id].isEnabled
  {
    PublicEntries(flags, SortedIds(flags.Keys))
  }

  /** The stored flags in the given id order, each reduced to name and switch. */
  function PublicEntries(flags: map<Id, FeatureFlag>, ids: seq<Id>): (r: seq<PublicFlag>)
    requires forall i :: 0 <= i < |ids| ==> ids[i] in flags
    ensures |r| == |ids|
    ensures forall i :: 0 <= i < |ids| ==>
      r[i] == PublicFlag(ids[i], flags[ids[i]].name, flags[ids[i]].isEnabled)
    ensures PublicIds(r) == ids
  {
    var r := seq(|ids|, i requires 0 <= i < |ids| => PublicFlag(ids[i], flags[ids[i]].name, flags[ids[i]].isEnabled));
    assert PublicIds(r) == ids;
    r
  }

  // ---------------------------------------------------------------------
  // updateFeatureFlag

  const FlagNotFound: string := "Feature flag not found."

  /** `updateFeatureFlag`: an unknown id gives 404; otherwise only the switch
      changes, to the value in the body (an absent value, stored unset, reads
      as off). */
  function UpdateFlagOutcome(db: Db, id: Id, isEnabled: Option<bool>): (o: Outcome<FeatureFlag>)
    ensures id !in db.flags ==> o == Outcome(Fail(404, FlagNotFound), db, [])
    ensures id in db.flags ==>
      var f := db.flags[id].(isEnabled := isEnabled == Some(true));
      o == Outcome(Ok(200, f), db.(flags := db.flags[id := f]), [])
  {
    if id !in db.flags then Outcome(Raised(404, FlagNotFound), db, [])
    else
      var f := db.flags[id].(isEnabled := isEnabled == Some(true));
      Outcome(Ok(200, f), db.(flags := db.flags[id := f]), [])
  }

  method UpdateFeatureFlag(srv: Server, id: Id, isEnabled: Option<bool>) returns (reply: Reply<FeatureFlag>)
    modifies srv`db
    ensures var o := UpdateFlagOutcome(old(srv.db), id, isEnabled);
      srv.db == o.db && reply == o.reply
  {
    if id !in srv.db.flags {
      return Fail(404, FlagNotFound);
    }
    var feature := srv.db.flags[id];
    feature := feature.(isEnabled := isEnabled == Some(true));
    srv.db := srv.db.(flags := srv.db.flags[id := feature]);
    reply := Ok(200, feature);
  }

  /** After an update the public listing shows the new switch for that flag
      and exactly what it showed before for every other one. */
  lemma UpdateSeenPublicly(db: Db, id: Id, isEnabled: Option<bool>)
    requires id in db.flags
    ensures var before := PublicFlags(db.flags);
      var after := PublicFlags(UpdateFlagOutcome(db, id, isEnabled).db.flags);
      |after| == |before| &&
      forall i :: 0 <= i < |before| ==>
        && after[i].id == before[i].id && after[i].name == before[i].name
        && after[i].isEnabled == (if before[i].id == id then isEnabled == Some(true) else before[i].isEnabled)
  {
    var f := db.flags[id].(isEnabled := isEnabled == Some(true));
    SwitchSeenPublicly(db.flags, id, f);
  }

  /** Replacing one stored flag by one of the same name changes only that
      entry's switch in the public listing. */
  lemma SwitchSeenPublicly(flags: map<Id, FeatureFlag>, id: Id, f: FeatureFlag)
    requires id in flags && f.name == flags[id].name
    ensures var before := PublicFlags(flags);
      var after := PublicFlags(flags[id := f]);
      |after| == |before| &&
      forall i :: 0 <= i < |before| ==>
        && after[i].id == before[i].id && after[i].name == before[i].name
        && after[i].isEnabled == (if before[i].id == id then f.isEnabled else before[i].isEnabled)
  {
    var flags1 := flags[id := f];
    assert flags1.Keys == flags.Keys;
    var ids := SortedIds(flags.Keys);
    var before := PublicEntries(flags, ids);
    var after := PublicEntries(flags1, ids);
    forall i | 0 <= i < |before|
      ensures after[i].id == before[i].id && after[i].name == before[i].name
      ensures after[i].isEnabled == (if before[i].id == id then f.isEnabled else before[i].isEnabled)
    {
      assert before[i] == PublicFlag(ids[i], flags[ids[i]].name, flags[ids[i]].isEnabled);
      assert after[i] == PublicFlag(ids[i], flags1[ids[i]].name, flags1[ids[i]].isEnabled);
    }
  }


  /** Updates keep the unique index on names, like seeding does. */
  lemma UpdateKeepsNamesUnique(db: Db, id: Id, isEnabled: Option<bool>)
    requires Dispatch.UniqueFlagNames(db.flags)
    ensures Dispatch.UniqueFlagNames(UpdateFlagOutcome(db, id, isEnabled).db.flags)
  {
    var flags1 := UpdateFlagOutcome(db, id, isEnabled).db.flags;
    forall a, b | a in flags1 && b in flags1 && flags1[a].name == flags1[b].name ensures a == b {
      assert db.flags[a].name == flags1[a].name && db.flags[b].name == flags1[b].name;
    }
  }

  // ---------------------------------------------------------------------
  // Settings

  const DefaultPrimaryColor: string := "#6366f1"
  const DefaultAccentColor: string := "#818cf8"
  const DefaultCompanyName: string := "Whisspra Inc."
  const DefaultAboutUs: string :=
    "Whisspra is a secure, next-generation chat platform supporting anonymous messaging, "
    + "whistleblower mode, and creator monetization."
  const DefaultFounderName: string := "Max Collins Botchway"
  const DefaultFounderInfo: string :=
    "Founder of Whisspra, dedicated to privacy and secure communication for all."
  const DefaultFounderContact: string := "+49017635228757"

  /** The constant object `getSettings` answers while no settings are stored. */
  const DisplayedDefaults: Settings := Settings(
    None, Some(DefaultPrimaryColor), Some(DefaultAccentColor), Some(DefaultCompanyName),
    Some(""), Some(""), Some(""), Some(DefaultAboutUs), Some(DefaultFounderName),
    Some(DefaultFounderInfo), Some(DefaultFounderContact))

  /** The schema defaults a newly inserted settings document receives: only
      the two colours and the company name have one. */
  const SchemaDefaults: Settings := Settings(
    None, Some(DefaultPrimaryColor), Some(DefaultAccentColor), Some(DefaultCompanyName),
    None, None, None, None, None, None, None)

  /** `getSettings`: the stored document, or the displayed defaults. */
  function GetSettingsOutcome(db: Db): (r: Reply<Settings>)
    ensures r.Ok? && r.status == 200
    ensures db.settings.Some? ==> r.body == db.settings.value
    ensures db.settings.None? ==> r.body == DisplayedDefaults
  {
    Ok(200, if db.settings.Some? then db.settings.value else DisplayedDefaults)
  }

  /** The eleven fields in declaration order. */
  function Fields(s: Settings): (r: seq<Option<string>>)
    ensures |r| == 11
  {
    [s.logoUrl, s.primaryColor, s.accentColor, s.companyName, s.contactEmail, s.contactPhone,
     s.address, s.aboutUs, s.founderName, s.founderInfo, s.founderContact]
  }

  lemma FieldsInjective(a: Settings, b: Settings)
    requires Fields(a) == Fields(b)
    ensures a == b
  {
    assert forall i :: 0 <= i < 11 ==> Fields(a)[i] == Fields(b)[i];
  }

  function Pick(given: Option<string>, kept: Option<string>): Option<string> {
    if given.Some? then given else kept
  }

  /** `$set` of the eleven body fields: a field missing from the body is
      left out of the update (an undefined key is dropped), so it keeps its
      value; every field the body supplies is stored as supplied. */
  function Merge(base: Settings, body: Settings): (r: Settings)
    ensures forall i :: 0 <= i < 11 ==>
      Fields(r)[i] == (if Fields(body)[i].Some? then Fields(body)[i] else Fields(base)[i])
  {
    Settings(Pick(body.logoUrl, base.logoUrl), Pick(body.primaryColor, base.primaryColor),
             Pick(body.accentColor, base.accentColor), Pick(body.companyName, base.companyName),
             Pick(body.contactEmail, base.contactEmail), Pick(body.contactPhone, base.contactPhone),
             Pick(body.address, base.address), Pick(body.aboutUs, base.aboutUs),
             Pick(body.founderName, base.founderName), Pick(body.founderInfo, base.founderInfo),
             Pick(body.founderContact, base.founderContact))
  }

  /** `updateSettings`: `findOneAndUpdate({}, { $set }, { upsert, new,
      setDefaultsOnInsert })` on the singleton. */
  function UpdateSettingsOutcome(db: Db, body: Settings): (o: Outcome<Settings>)
    ensures o.reply.Ok? && o.reply.status == 200
    ensures o.db.settings == Some(o.reply.body)
    ensures o.db == db.(settings := o.db.settings) && o.events == []
    ensures forall i :: 0 <= i < 11 && Fields(body)[i].Some? ==> Fields(o.reply.body)[i] == Fields(body)[i]
    ensures db.settings.Some? ==>
      forall i :: 0 <= i < 11 && Fields(body)[i].None? ==> Fields(o.reply.body)[i] == Fields(db.settings.value)[i]
    ensures db.settings.None? ==>
      forall i :: 0 <= i < 11 && Fields(body)[i].None? ==> Fields(o.reply.body)[i] == Fields(SchemaDefaults)[i]
  {
    var base := if db.settings.Some? then db.settings.value else SchemaDefaults;
    var s := Merge(base, body);
    Outcome(Ok(200, s), db.(settings := Some(s)), [])
  }

  method UpdateSettings(srv: Server, body: Settings) returns (reply: Reply<Settings>)
    modifies srv`db
    ensures var o := UpdateSettingsOutcome(old(srv.db), body);
      srv.db == o.db && reply == o.reply
  {
    var base := if srv.db.settings.Some? then srv.db.settings.value else SchemaDefaults;
    var settings := Merge(base, body);
    srv.db := srv.db.(settings := Some(settings));
    reply := Ok(200, settings);
  }

  /** Reading after an update returns what the update answered, and
      repeating an update changes nothing more. */
  lemma UpdateThenGet(db: Db, body: Settings)
    ensures var o := UpdateSettingsOutcome(db, body);
      GetSettingsOutcome(o.db) == o.reply
    ensures var db1 := UpdateSettingsOutcome(db, body).db;
      UpdateSettingsOutcome(db1, body).db == db1
  {
    var db1 := UpdateSettingsOutcome(db, body).db;
    var s := db1.settings.value;
    FieldsInjective(Merge(s, body), s);
  }

  /** The displayed defaults are not stored: the first update of a single
      field makes the default about-us and founder texts disappear from
      `getSettings`, although the body did not mention them. */
  lemma FirstUpdateDropsDisplayedDefaults(db: Db, body: Settings)
    requires db.settings.None?
    requires body.aboutUs.None? && body.founderName.None?
    ensures GetSettingsOutcome(db).body.aboutUs == Some(DefaultAboutUs)
    ensures var after := GetSettingsOutcome(UpdateSettingsOutcome(db, body).db).body;
      after.aboutUs.None? && after.founderName.None?
  {
    UpdateThenGet(db, body);
    var r := UpdateSettingsOutcome(db, body).reply.body;
    assert Fields(body)[7].None? && Fields(body)[8].None?;
    assert Fields(r)[7] == Fields(SchemaDefaults)[7];
    assert Fields(r)[8] == Fields(SchemaDefaults)[8];
  }
}
