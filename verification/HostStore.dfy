/** Host storage: the SQLite backend (remote_cmd/repository/sqlite_host_repository.py) with
    its derived tag index, and the JSON backend (json_host_repository.py), which keeps the
    hosts in a dictionary. Tables are maps and sets with the declared keys. */
module HostStore {
  import opened Options
  import opened Names

  /** An element of a tag list: a string, or any other JSON value. */
  datatype TagValue = Tag(text: string) | Other(json: nat)

  /** What `Host.tags` may hold; nothing checks its type. */
  datatype Tags = ListOf(items: seq<TagValue>) | TupleOf(items: seq<TagValue>) | NotAList(json: nat)

  /** `info` stands for the fields that storage only copies. */
  datatype Host = Host(name: string, info: nat, tags: Tags, profile: Option<string>)

  /** The strings among the values, in order. */
  function Strings(items: seq<TagValue>): seq<string> {
    if items == [] then []
    else (if items[0].Tag? then [items[0].text] else []) + Strings(items[1..])
  }

  lemma {:induction false} StringsExact(items: seq<TagValue>, s: string)
    ensures s in Strings(items) <==> Tag(s) in items
  {
    if items != [] {
      StringsExact(items[1..], s);
      assert items == [items[0]] + items[1..];
    }
  }

  lemma {:induction false} StringsAppend(a: seq<TagValue>, b: seq<TagValue>)
    ensures Strings(a + b) == Strings(a) + Strings(b)
  {
    if a == [] {
      assert a + b == b;
    } else {
      assert (a + b)[0] == a[0] && (a + b)[1..] == a[1..] + b;
      StringsAppend(a[1..], b);
    }
  }

  // ----------------------------------------------------------------- SQLite

  /** json.dumps(host.tags or []): lists and tuples are stored alike, as an array. */
  function Stored(tags: Tags): Option<seq<TagValue>> {
    if tags.NotAList? then None else Some(tags.items)
  }

  /** _parse_tag_list on a stored column. */
  function ParseTags(stored: Option<seq<TagValue>>): seq<string> {
    if stored.Some? then Strings(stored.value) else []
  }

  datatype Row = Row(info: nat, tags: Option<seq<TagValue>>, profile: Option<string>)

  datatype Database = Database(
    hosts: map<string, Row>,
    hostTags: set<(string, string)>,
    profiles: map<string, nat>)

  /** What a host's stored tags are worth to a reader. */
  function TagsOf(db: Database, name: string): seq<string> {
    if name in db.hosts then ParseTags(db.hosts[name].tags) else []
  }

  datatype Saved = Accepted | UnknownProfile

  function WithoutTags(hostTags: set<(string, string)>, name: string): set<(string, string)> {
    set p | p in hostTags && p.0 != name
  }

  function TagPairs(name: string, tags: seq<string>): set<(string, string)> {
    set t | t in tags :: (name, t)
  }

  function Reindexed(hostTags: set<(string, string)>, name: string, tags: Tags): set<(string, string)> {
    WithoutTags(hostTags, name) + TagPairs(name, ParseTags(Stored(tags)))
  }

  predicate ProfileKnown(db: Database, profile: Option<string>) {
    profile.Some? ==> profile.value in db.profiles
  }

  function Save(db: Database, host: Host): (Database, Saved) {
    if !ProfileKnown(db, host.profile) then (db, UnknownProfile)
    else (db.(hosts := db.hosts[host.name := Row(host.info, Stored(host.tags), host.profile)],
              hostTags := Reindexed(db.hostTags, host.name, host.tags)), Accepted)
  }

  /** The index goes with the host: ON DELETE CASCADE. */
  function Delete(db: Database, name: string): (Database, bool) {
    (db.(hosts := db.hosts - {name}, hostTags := WithoutTags(db.hostTags, name)), name in db.hosts)
  }

  datatype ProfileDeletion = ProfileDeleted | StillReferenced | NoSuchProfile

  predicate Referenced(db: Database, profile: string) {
    exists name :: name in db.hosts && db.hosts[name].profile == Some(profile)
  }

  /** ON DELETE RESTRICT */
  function DeleteProfile(db: Database, profile: string): (Database, ProfileDeletion) {
    if profile !in db.profiles then (db, NoSuchProfile)
    else if Referenced(db, profile) then (db, StillReferenced)
    else (db.(profiles := db.profiles - {profile}), ProfileDeleted)
  }

  /** _init_db on a database without the index table fills it from the stored tags; on
      every other database it is left as it is. */
  function Open(db: Database, indexExists: bool): Database {
    if indexExists then db
    else db.(hostTags := set name, t | name in db.hosts && t in ParseTags(db.hosts[name].tags) :: (name, t))
  }

  /** The host as _row_to_host reads it back. */
  function Read(db: Database, name: string): Host
    requires name in db.hosts
  {
    var row := db.hosts[name];
    var tags := ParseTags(row.tags);
    Host(name, row.info, ListOf(seq(|tags|, i requires 0 <= i < |tags| => Tag(tags[i]))), row.profile)
  }

  /** The names that a query selects: all, or those that the index lists for the tag. An
      empty tag is no filter. */
  function Selected(db: Database, tag: Option<string>): set<string> {
    if tag.Some? && tag.value != "" then set name | name in db.hosts && (name, tag.value) in db.hostTags
    else db.hosts.Keys
  }

  /** LIMIT and OFFSET: a negative limit is none, a negative offset is zero. */
  function Page(names: seq<string>, offset: int, limit: int): seq<string> {
    var first := if offset < 0 then 0 else if offset > |names| then |names| else offset;
    var rest := names[first..];
    if limit < 0 || limit > |rest| then rest else rest[..limit]
  }

  /** `page` is the part of a listing that starts at the offset, at most `limit` names long;
      a negative offset is none, one behind the end gives an empty page, a negative limit is
      none. */
  ghost predicate IsPage(names: seq<string>, offset: int, limit: int, page: seq<string>) {
    var first := if offset > 0 then offset else 0;
    if first >= |names| then page == []
    else if limit < 0 || first + limit >= |names| then page == names[first..]
    else page == names[first..first + limit]
  }

  lemma PageExactly(names: seq<string>, offset: int, limit: int)
    ensures IsPage(names, offset, limit, Page(names, offset, limit))
  {
  }

  /** `names` are the selected hosts in ascending order. */
  ghost predicate Lists(db: Database, tag: Option<string>, names: seq<string>) {
    Ascending(names) && forall name :: name in names <==> name in Selected(db, tag)
  }

  /** Some host is listed under the tag. */
  ghost predicate TagListed(db: Database, tag: string) {
    exists name :: (name, tag) in db.hostTags
  }

  // ------------------------------------------------ what the database keeps

  /** The index holds exactly the pairs of a host and a string in its stored tag list. */
  ghost predicate IndexExact(db: Database) {
    forall name :: ExactFor(db, name)
  }

  /** The same for one host. */
  ghost predicate ExactFor(db: Database, name: string) {
    forall tag :: (name, tag) in db.hostTags <==> tag in TagsOf(db, name)
  }

  lemma SaveExact(db: Database, host: Host, name: string)
    ensures Save(db, host).1.Accepted? ==> ExactFor(Save(db, host).0, host.name)
    ensures ExactFor(db, name) ==> ExactFor(Save(db, host).0, name)
  {
  }

  lemma DeleteExact(db: Database, gone: string, name: string)
    ensures ExactFor(Delete(db, gone).0, gone)
    ensures ExactFor(db, name) ==> ExactFor(Delete(db, gone).0, name)
  {
  }

  /** A host whose profile does not exist. */
  predicate Dangles(db: Database, name: string) {
    name in db.hosts && !ProfileKnown(db, db.hosts[name].profile)
  }

  class SqliteRepository {
    var hosts: map<string, Row>
    var hostTags: set<(string, string)>
    var profiles: map<string, nat>

    function Value(): Database
      reads this
    {
      Database(hosts, hostTags, profiles)
    }

    /** Opening a database file, with or without the index table. */
    constructor (file: Database, indexExists: bool)
      ensures Value() == Open(file, indexExists)
    {
      hosts, hostTags, profiles := file.hosts, file.hostTags, file.profiles;
      new;
      if !indexExists {
        hostTags := {};
        var left := hosts.Keys;
        while left != {}
          invariant left <= hosts.Keys && hosts == file.hosts && profiles == file.profiles
          invariant hostTags == set name, t | name in hosts && name !in left && t in ParseTags(hosts[name].tags) :: (name, t)
          decreases left
        {
          var name :| name in left;
          ReplaceHostTags(name, ListOf(if hosts[name].tags.Some? then hosts[name].tags.value else []));
          left := left - {name};
        }
      }
    }

    /** _replace_host_tags: a tag that the list repeats is inserted once, so no insertion
        meets an existing primary key. */
    method ReplaceHostTags(name: string, tags: Tags)
      modifies this`hostTags
      ensures hostTags == Reindexed(old(hostTags), name, tags)
    {
      hostTags := WithoutTags(hostTags, name);
      if tags.NotAList? {
        return;
      }
      ghost var others := hostTags;
      var seen: set<string> := {};
      var i := 0;
      while i < |tags.items|
        invariant 0 <= i <= |tags.items|
        invariant forall t :: t in seen <==> t in Strings(tags.items[..i])
        invariant hostTags == others + TagPairs(name, Strings(tags.items[..i]))
      {
        assert tags.items[..i + 1] == tags.items[..i] + [tags.items[i]];
        StringsAppend(tags.items[..i], [tags.items[i]]);
        if tags.items[i].Tag? && tags.items[i].text !in seen {
          assert (name, tags.items[i].text) !in hostTags;
          hostTags := hostTags + {(name, tags.items[i].text)};
          seen := seen + {tags.items[i].text};
        }
        i := i + 1;
      }
      assert tags.items[..i] == tags.items;
    }

    method SaveHost(host: Host) returns (saved: Saved)
      modifies this
      ensures (Value(), saved) == Save(old(Value()), host)
      ensures saved.Accepted? <==> host.profile.None? || host.profile.value in old(profiles)
      ensures saved.UnknownProfile? ==> Value() == old(Value())
      ensures profiles == old(profiles)
      ensures forall name :: name != host.name ==>
                (name in hosts <==> name in old(hosts)) && (name in hosts ==> hosts[name] == old(hosts)[name])
      ensures saved.Accepted? ==> ExactFor(Value(), host.name) && !Dangles(Value(), host.name)
      ensures forall name :: ExactFor(old(Value()), name) ==> ExactFor(Value(), name)
      ensures forall name :: Dangles(Value(), name) ==> Dangles(old(Value()), name)
    {
      ghost var before := Value();
      forall name ensures ExactFor(before, name) ==> ExactFor(Save(before, host).0, name) {
        SaveExact(before, host, name);
      }
      SaveExact(before, host, host.name);
      if host.profile.Some? && host.profile.value !in profiles {
        return UnknownProfile;
      }
      hosts := hosts[host.name := Row(host.info, Stored(host.tags), host.profile)];
      ReplaceHostTags(host.name, host.tags);
      saved := Accepted;
    }

    /** The host is gone, from the index too; every other host and its tags are as before. */
    method DeleteHost(name: string) returns (found: bool)
      modifies this
      ensures (Value(), found) == Delete(old(Value()), name)
      ensures (found <==> name in old(hosts)) && hosts == old(hosts) - {name} && profiles == old(profiles)
      ensures forall other :: other == name || ExactFor(old(Value()), other) ==> ExactFor(Value(), other)
      ensures forall other :: Dangles(Value(), other) <==> Dangles(old(Value()), other) && other != name
      ensures forall tag :: name !in Selected(Value(), tag)
      ensures forall tag, other :: other != name ==> (other in Selected(Value(), tag) <==> other in Selected(old(Value()), tag))
    {
      ghost var before := Value();
      forall other ensures other == name || ExactFor(before, other) ==> ExactFor(Delete(before, name).0, other) {
        DeleteExact(before, name, other);
      }
      found := name in hosts;
      hosts := hosts - {name};
      hostTags := WithoutTags(hostTags, name);
    }

    /** Afterwards the references to the profile are good, and no other reference is touched. */
    method SaveProfile(profile: string, info: nat)
      modifies this
      ensures Value() == old(Value()).(profiles := old(profiles)[profile := info])
      ensures forall name :: Dangles(Value(), name) <==>
                Dangles(old(Value()), name) && hosts[name].profile != Some(profile)
    {
      profiles := profiles[profile := info];
    }

    /** A profile is only removed when no host refers to it, so no reference starts to
        dangle. */
    method RemoveProfile(profile: string) returns (done: ProfileDeletion)
      modifies this
      ensures (Value(), done) == DeleteProfile(old(Value()), profile)
      ensures done.NoSuchProfile? <==> profile !in old(profiles)
      ensures profiles == if done.ProfileDeleted? then old(profiles) - {profile} else old(profiles)
      ensures hosts == old(hosts) && hostTags == old(hostTags)
      ensures done.ProfileDeleted? ==> forall name :: name in hosts ==> hosts[name].profile != Some(profile)
      ensures done.StillReferenced? ==> exists name :: name in hosts && hosts[name].profile == Some(profile)
      ensures forall name :: Dangles(Value(), name) <==> Dangles(old(Value()), name)
    {
      if profile !in profiles {
        return NoSuchProfile;
      }
      if Referenced(Value(), profile) {
        return StillReferenced;
      }
      profiles := profiles - {profile};
      done := ProfileDeleted;
    }

    /** list: the selected hosts in the order of their names. */
    method ListHosts(tag: Option<string>) returns (names: seq<string>)
      ensures Lists(Value(), tag, names)
      ensures forall name :: name in names <==>
                name in hosts && (tag.None? || tag.value == "" || (name, tag.value) in hostTags)
    {
      names := Sort(Selected(Value(), tag));
    }

    /** list_tags: SELECT DISTINCT tag ... ORDER BY tag */
    method ListTags() returns (tags: seq<string>)
      ensures Ascending(tags) && forall t :: t in tags <==> TagListed(Value(), t)
    {
      var all := set p | p in hostTags :: p.1;
      tags := Sort(all);
    }

    /** A page of what ListHosts returns, and how many names that has. */
    method ListPaginated(offset: int, limit: int, tag: Option<string>) returns (page: seq<string>, total: nat)
      ensures exists names ::
                Lists(Value(), tag, names) && total == |names| && IsPage(names, offset, limit, page)
    {
      var names := ListHosts(tag);
      PageExactly(names, offset, limit);
      page := Page(names, offset, limit);
      total := |names|;
    }
  }
}
