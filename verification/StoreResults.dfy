/** What the two backends promise, over every sequence of operations: the tag index lists
    exactly the tags that the stored lists hold, the backends agree, pages add up, and the
    SQLite backend never makes a profile reference dangle. */
module StoreResults {
  import opened Options
  import opened Sequences
  import opened Names
  import opened HostStore
  import opened JsonStore

  // ------------------------------------------------------------------- runs

  datatype Operation =
    | SaveHost(host: Host)
    | DeleteHost(name: string)
    | SaveProfile(profile: string, info: nat)
    | RemoveProfile(profile: string)
    | Reopen

  function Apply(db: Database, op: Operation): Database {
    match op
    case SaveHost(host) => Save(db, host).0
    case DeleteHost(name) => Delete(db, name).0
    case SaveProfile(profile, info) => db.(profiles := db.profiles[profile := info])
    case RemoveProfile(profile) => DeleteProfile(db, profile).0
    case Reopen => Open(db, true)
  }

  function Exec(db: Database, ops: seq<Operation>): Database
    decreases |ops|
  {
    if ops == [] then db else Exec(Apply(db, ops[0]), ops[1..])
  }

  // -------------------------------------------------------- the index is exact

  /** A step keeps the index exact for each host for which it is, and makes it exact for a
      host that it saves or deletes. */
  lemma ApplyExact(db: Database, op: Operation, name: string)
    ensures ExactFor(db, name) || Rewrites(db, op, name) ==> ExactFor(Apply(db, op), name)
  {
    match op
    case SaveHost(host) =>
      SaveExact(db, host, name);
    case DeleteHost(gone) =>
      DeleteExact(db, gone, name);
    case _ => assert TagsOf(Apply(db, op), name) == TagsOf(db, name);
  }

  /** The operation writes the host's row: an accepted save, or a deletion. */
  predicate Rewrites(db: Database, op: Operation, name: string) {
    match op
    case SaveHost(host) => host.name == name && ProfileKnown(db, host.profile)
    case DeleteHost(gone) => gone == name
    case _ => false
  }

  /** Some operation of the sequence writes the host's row. */
  predicate Rewritten(db: Database, ops: seq<Operation>, name: string)
    decreases |ops|
  {
    ops != [] && (Rewrites(db, ops[0], name) || Rewritten(Apply(db, ops[0]), ops[1..], name))
  }

  /** Whatever the index of a file holds, it is exact for every host that has been saved or
      deleted since, and for every other one for which it was. */
  lemma {:induction false} IndexRepaired(db: Database, ops: seq<Operation>, name: string)
    ensures ExactFor(db, name) || Rewritten(db, ops, name) ==> ExactFor(Exec(db, ops), name)
    decreases |ops|
  {
    if ops != [] {
      ApplyExact(db, ops[0], name);
      IndexRepaired(Apply(db, ops[0]), ops[1..], name);
    }
  }

  lemma ExecIndex(db: Database, ops: seq<Operation>)
    requires IndexExact(db)
    ensures IndexExact(Exec(db, ops))
  {
    forall name ensures ExactFor(Exec(db, ops), name) {
      assert ExactFor(db, name);
      IndexRepaired(db, ops, name);
    }
  }

  /** A new database, and an old one without the index table, whatever it holds: after the
      backfill and any sequence of operations the index is exact. */
  lemma IndexAlwaysExact(file: Database, ops: seq<Operation>, name: string, tag: string)
    ensures var db := Exec(Open(file, false), ops);
            (name, tag) in db.hostTags <==>
              name in db.hosts && db.hosts[name].tags.Some? && Tag(tag) in db.hosts[name].tags.value
  {
    OpenIndex(file);
    ExecIndex(Open(file, false), ops);
    var db := Exec(Open(file, false), ops);
    assert ExactFor(db, name);
    if name in db.hosts && db.hosts[name].tags.Some? {
      StringsExact(db.hosts[name].tags.value, tag);
    }
  }

  lemma OpenIndex(file: Database)
    ensures IndexExact(Open(file, false))
  {
  }

  // ------------------------------------------------------ profile references

  /** The operation ends a dangling reference: it writes the host's row, or creates the
      profile that the host refers to. */
  predicate Mends(db: Database, op: Operation, name: string) {
    Rewrites(db, op, name) || (op.SaveProfile? && name in db.hosts && db.hosts[name].profile == Some(op.profile))
  }

  /** No operation of the sequence ends the host's dangling reference. */
  predicate Neglected(db: Database, ops: seq<Operation>, name: string)
    decreases |ops|
  {
    ops == [] || (!Mends(db, ops[0], name) && Neglected(Apply(db, ops[0]), ops[1..], name))
  }

  lemma ApplyDangles(db: Database, op: Operation, name: string)
    ensures Dangles(Apply(db, op), name) <==> Dangles(db, name) && !Mends(db, op, name)
    ensures Dangles(Apply(db, op), name) ==> Apply(db, op).hosts[name].profile == db.hosts[name].profile
  {
    if op.RemoveProfile? && Apply(db, op) != db && name in db.hosts {
      assert db.hosts[name].profile != Some(op.profile);
    }
  }

  /** Which references dangle, exactly: those of the file that nothing has mended since. No
      operation makes a reference dangle. */
  lemma {:induction false} DanglingExactly(db: Database, ops: seq<Operation>, name: string)
    ensures Dangles(Exec(db, ops), name) <==> Dangles(db, name) && Neglected(db, ops, name)
    decreases |ops|
  {
    if ops != [] {
      ApplyDangles(db, ops[0], name);
      DanglingExactly(Apply(db, ops[0]), ops[1..], name);
    }
  }

  /** So in a database all of whose references exist they always do; but the rebuild that
      adds the foreign key to an old database copies its rows unchecked, and a dangling
      reference stays until the host is saved or deleted or its profile is created. */
  lemma ReferencesExist(file: Database, indexExists: bool, ops: seq<Operation>, name: string)
    ensures var db := Open(file, indexExists);
            Dangles(Exec(db, ops), name) <==> Dangles(file, name) && Neglected(db, ops, name)
  {
    var db := Open(file, indexExists);
    assert Dangles(db, name) == Dangles(file, name);
    DanglingExactly(db, ops, name);
  }

  // ------------------------------------------------------ the backends agree

  /** Both backends hold the same hosts, as a caller reads them. */
  ghost predicate Agree(db: Database, store: Store) {
    db.hosts.Keys == store.hosts.Keys && forall name :: name in db.hosts ==> Read(db, name) == store.hosts[name]
  }

  /** A tuple that holds a string: stored as a list by SQLite, dropped by JSON. */
  predicate IsTagTuple(tags: Tags) {
    tags.TupleOf? && Strings(tags.items) != []
  }

  lemma ReadTags(tags: seq<string>)
    ensures ListOf(seq(|tags|, i requires 0 <= i < |tags| => Tag(tags[i]))) == ListOf(Tagged(tags))
    ensures Tagged(tags) == [] <==> tags == []
  {
    assert seq(|tags|, i requires 0 <= i < |tags| => Tag(tags[i])) == Tagged(tags);
  }

  /** A host saved in both backends is read back alike exactly when its tags are not a
      tuple that holds a string. */
  lemma SaveAgrees(db: Database, store: Store, host: Host)
    requires Agree(db, store) && ProfileKnown(db, host.profile)
    ensures Agree(Save(db, host).0, SaveJson(store, host)) <==> !IsTagTuple(host.tags)
  {
    var db', store' := Save(db, host).0, SaveJson(store, host);
    ReadTags(ParseTags(Stored(host.tags)));
    assert Tagged([]) == [];
    forall name | name in db.hosts && name != host.name ensures Read(db', name) == store'.hosts[name] {
      assert Read(db', name) == Read(db, name);
    }
    assert db'.hosts.Keys == store'.hosts.Keys;
    assert Read(db', host.name).tags == ListOf(Tagged(ParseTags(Stored(host.tags))));
    assert IsTagTuple(host.tags) ==> Read(db', host.name) != store'.hosts[host.name];
    assert !IsTagTuple(host.tags) ==> Read(db', host.name) == store'.hosts[host.name];
  }

  function ApplyJson(store: Store, op: Operation): Store {
    match op
    case SaveHost(host) => SaveJson(store, host)
    case DeleteHost(name) => DeleteJson(store, name).0
    case _ => store
  }

  function ExecJson(store: Store, ops: seq<Operation>): Store
    decreases |ops|
  {
    if ops == [] then store else ExecJson(ApplyJson(store, ops[0]), ops[1..])
  }

  /** The saves that SQLite accepts and both backends read alike; every other operation. */
  predicate Common(db: Database, op: Operation) {
    op.SaveHost? ==> ProfileKnown(db, op.host.profile) && !IsTagTuple(op.host.tags)
  }

  predicate AllCommon(db: Database, ops: seq<Operation>)
    decreases |ops|
  {
    ops != [] ==> Common(db, ops[0]) && AllCommon(Apply(db, ops[0]), ops[1..])
  }

  lemma ApplyAgrees(db: Database, store: Store, op: Operation)
    requires Agree(db, store) && JsonStore.Valid(store) && Common(db, op)
    ensures Agree(Apply(db, op), ApplyJson(store, op)) && JsonStore.Valid(ApplyJson(store, op))
  {
    match op
    case SaveHost(host) => SaveAgrees(db, store, host); SaveValid(store, host);
    case DeleteHost(name) =>
      DeleteValid(store, name);
      assert forall n :: n in Apply(db, op).hosts ==> Read(Apply(db, op), n) == Read(db, n);
    case _ => assert forall n :: n in Apply(db, op).hosts ==> Read(Apply(db, op), n) == Read(db, n);
  }

  lemma {:induction false} ExecAgrees(db: Database, store: Store, ops: seq<Operation>)
    requires Agree(db, store) && JsonStore.Valid(store) && AllCommon(db, ops)
    ensures Agree(Exec(db, ops), ExecJson(store, ops)) && JsonStore.Valid(ExecJson(store, ops))
    decreases |ops|
  {
    if ops != [] {
      ApplyAgrees(db, store, ops[0]);
      ExecAgrees(Apply(db, ops[0]), ApplyJson(store, ops[0]), ops[1..]);
    }
  }

  lemma SameTags(db: Database, store: Store, name: string)
    requires Agree(db, store)
    ensures TagsIn(store, name) == TagsOf(db, name)
  {
    if name in db.hosts {
      ReadTags(TagsOf(db, name));
      StringsOfTagged(TagsOf(db, name));
      assert Read(db, name) == store.hosts[name];
    }
  }

  /** After the same operations on both backends, what SQLite's indexed list returns for a
      tag is what the JSON backend's filter over the plain tag lists returns, sorted by
      name: the same hosts, each once. */
  lemma ListsAgree(ops: seq<Operation>, tag: Option<string>, listed: seq<string>)
    requires AllCommon(Database(map[], {}, map[]), ops)
    requires var db := Exec(Database(map[], {}, map[]), ops);
             Lists(db, tag, listed)
    ensures var db := Exec(Database(map[], {}, map[]), ops);
            var store := ExecJson(Store(map[], []), ops);
            && (forall name :: name in listed <==> name in ListJson(store, tag))
            && Distinct(ListJson(store, tag)) && Distinct(listed)
            && (forall name :: name in listed ==> name in db.hosts && name in store.hosts
                                                  && Read(db, name) == store.hosts[name])
  {
    var empty := Database(map[], {}, map[]);
    var db, store := Exec(empty, ops), ExecJson(Store(map[], []), ops);
    ExecAgrees(empty, Store(map[], []), ops);
    ExecIndex(empty, ops);
    forall name ensures name in Selected(db, tag) <==> name in ListJson(store, tag) {
      assert ExactFor(db, name);
      FilteredExact(store, store.order, tag, name);
      SameTags(db, store, name);
    }
    FilteredDistinct(store, store.order, tag);
    forall i, j | 0 <= i < j < |listed| ensures listed[i] != listed[j] {
      LessTotal(listed[i], listed[j]);
    }
  }

  lemma TagsAgree(db: Database, store: Store, tag: string)
    requires Agree(db, store) && IndexExact(db)
    ensures TagListed(db, tag) <==> TagUsed(store, tag)
  {
    if name :| (name, tag) in db.hostTags {
      assert ExactFor(db, name);
      SameTags(db, store, name);
    }
    if name :| name in store.hosts && tag in TagsIn(store, name) {
      assert ExactFor(db, name);
      SameTags(db, store, name);
      assert (name, tag) in db.hostTags;
    }
  }

  lemma TagListsEqual(db: Database, store: Store, sqlite: seq<string>, json: seq<string>)
    requires Agree(db, store) && IndexExact(db)
    requires Ascending(sqlite) && forall tag :: tag in sqlite <==> TagListed(db, tag)
    requires Ascending(json) && forall tag :: tag in json <==> TagUsed(store, tag)
    ensures sqlite == json
  {
    forall tag ensures tag in sqlite <==> tag in json {
      TagsAgree(db, store, tag);
    }
    AscendingUnique(sqlite, json);
  }

  /** And the two list_tags return the same sequence. */
  lemma TagListsAgree(ops: seq<Operation>, sqlite: seq<string>, json: seq<string>)
    requires AllCommon(Database(map[], {}, map[]), ops)
    requires Ascending(sqlite) && forall tag :: tag in sqlite <==> TagListed(Exec(Database(map[], {}, map[]), ops), tag)
    requires Ascending(json) && forall tag :: tag in json <==> TagUsed(ExecJson(Store(map[], []), ops), tag)
    ensures sqlite == json
  {
    var empty := Database(map[], {}, map[]);
    ExecAgrees(empty, Store(map[], []), ops);
    ExecIndex(empty, ops);
    TagListsEqual(Exec(empty, ops), ExecJson(Store(map[], []), ops), sqlite, json);
  }

  // --------------------------------------------------------------------- pages

  /** The pages from `offset` on, one after the other. */
  function AllPages(names: seq<string>, offset: nat, limit: nat): seq<string>
    requires limit > 0
    decreases |names| - offset
  {
    if offset >= |names| then [] else Page(names, offset, limit) + AllPages(names, offset + limit, limit)
  }

  lemma {:induction false} PagesFrom(names: seq<string>, offset: nat, limit: nat)
    requires limit > 0 && offset <= |names|
    ensures AllPages(names, offset, limit) == names[offset..]
    decreases |names| - offset
  {
    if offset < |names| {
      var next := if offset + limit < |names| then offset + limit else |names|;
      PagesFrom(names, next, limit);
      PageIs(names, offset, limit, next);
      assert names[offset..] == names[offset..next] + names[next..];
    }
  }

  lemma PageIs(names: seq<string>, offset: nat, limit: nat, next: nat)
    requires offset <= |names| && next == if offset + limit < |names| then offset + limit else |names|
    ensures Page(names, offset, limit) == names[offset..next]
  {
    assert |names[offset..]| == |names| - offset;
    assert limit <= |names| - offset ==> names[offset..][..limit] == names[offset..offset + limit];
  }

  /** The pages of a listing, concatenated, are the listing. */
  lemma PagesAddUp(names: seq<string>, limit: nat)
    requires limit > 0
    ensures AllPages(names, 0, limit) == names
  {
    PagesFrom(names, 0, limit);
  }
}
