/** The JSON backend (remote_cmd/repository/json_host_repository.py): hosts in a dictionary,
    read by comprehensions over it. */
module JsonStore {
  import opened Options
  import opened Sequences
  import opened Names
  import opened HostStore

  function Tagged(tags: seq<string>): seq<TagValue> {
    seq(|tags|, i requires 0 <= i < |tags| => Tag(tags[i]))
  }

  /** _copy_host: of a list the strings are kept, anything else, a tuple too, is dropped. */
  function CopyHost(host: Host): Host {
    host.(tags := ListOf(if host.tags.ListOf? then Tagged(Strings(host.tags.items)) else []))
  }

  /** `order` is the order in which a dictionary is iterated: that of first insertion. */
  datatype Store = Store(hosts: map<string, Host>, order: seq<string>)

  ghost predicate Valid(store: Store) {
    && (forall name :: name in store.order <==> name in store.hosts)
    && Distinct(store.order)
  }

  function Without(order: seq<string>, name: string): seq<string> {
    if order == [] then []
    else (if order[0] == name then [] else [order[0]]) + Without(order[1..], name)
  }

  function SaveJson(store: Store, host: Host): Store {
    Store(store.hosts[host.name := CopyHost(host)],
          if host.name in store.hosts then store.order else store.order + [host.name])
  }

  function DeleteJson(store: Store, name: string): (Store, bool) {
    (Store(store.hosts - {name}, Without(store.order, name)), name in store.hosts)
  }

  function TagsIn(store: Store, name: string): seq<string> {
    if name in store.hosts && store.hosts[name].tags.ListOf? then Strings(store.hosts[name].tags.items) else []
  }

  /** Some host has the tag. */
  ghost predicate TagUsed(store: Store, tag: string) {
    exists name :: name in store.hosts && tag in TagsIn(store, name)
  }

  predicate Matches(store: Store, tag: Option<string>, name: string) {
    tag.None? || tag.value == "" || tag.value in TagsIn(store, name)
  }

  function Filtered(store: Store, order: seq<string>, tag: Option<string>): seq<string> {
    if order == [] then []
    else (if Matches(store, tag, order[0]) then [order[0]] else []) + Filtered(store, order[1..], tag)
  }

  /** The names of the hosts that list returns. */
  function ListJson(store: Store, tag: Option<string>): seq<string> {
    Filtered(store, store.order, tag)
  }

  class JsonRepository {
    var hosts: map<string, Host>
    var order: seq<string>

    function Value(): Store
      reads this
    {
      Store(hosts, order)
    }

    constructor ()
      ensures Value() == Store(map[], [])
    {
      hosts, order := map[], [];
    }

    /** A known host keeps its place in every listing, a new one comes last; the other
        hosts are kept and listed as before. Of the saved host's tags the strings of a list
        are kept, in order. */
    method SaveHost(host: Host)
      modifies this
      ensures Value() == SaveJson(old(Value()), host)
      ensures forall name :: name in hosts <==> name == host.name || name in old(hosts)
      ensures forall name :: name in old(hosts) && name != host.name ==> hosts[name] == old(hosts)[name]
      ensures hosts[host.name] == host.(tags := hosts[host.name].tags) && hosts[host.name].tags.ListOf?
      ensures TagsIn(Value(), host.name) == if host.tags.ListOf? then Strings(host.tags.items) else []
      ensures Valid(old(Value())) ==> Valid(Value())
      ensures forall tag ::
                Without(ListJson(Value(), tag), host.name) == Without(ListJson(old(Value()), tag), host.name)
      ensures host.name !in old(hosts) ==> ListJson(Value(), None) == ListJson(old(Value()), None) + [host.name]
    {
      ghost var before := Value();
      if Valid(before) { SaveValid(before, host); }
      if host.tags.ListOf? { StringsOfTagged(Strings(host.tags.items)); }
      forall tag ensures Without(ListJson(SaveJson(before, host), tag), host.name)
                      == Without(ListJson(before, tag), host.name) {
        SaveListed(before, host, tag);
      }
      ListAll(before, before.order);
      ListAll(SaveJson(before, host), SaveJson(before, host).order);
      if host.name !in hosts {
        order := order + [host.name];
      }
      hosts := hosts[host.name := CopyHost(host)];
    }

    /** Every listing is as before, without the host. */
    method DeleteHost(name: string) returns (found: bool)
      modifies this
      ensures (Value(), found) == DeleteJson(old(Value()), name)
      ensures (found <==> name in old(hosts)) && name !in hosts
      ensures forall other :: other != name ==>
                (other in hosts <==> other in old(hosts)) && (other in hosts ==> hosts[other] == old(hosts)[other])
      ensures Valid(old(Value())) ==> Valid(Value())
      ensures forall tag :: ListJson(Value(), tag) == Without(ListJson(old(Value()), tag), name)
    {
      ghost var before := Value();
      if Valid(before) { DeleteValid(before, name); }
      forall tag ensures ListJson(DeleteJson(before, name).0, tag) == Without(ListJson(before, tag), name) {
        DeleteListed(before, DeleteJson(before, name).0, before.order, name, tag);
      }
      found := name in hosts;
      hosts := hosts - {name};
      order := Without(order, name);
    }

    method ListTags() returns (tags: seq<string>)
      ensures Ascending(tags) && forall t :: t in tags <==> TagUsed(Value(), t)
    {
      var all: set<string> := {};
      var left := hosts.Keys;
      while left != {}
        invariant left <= hosts.Keys
        invariant forall t :: t in all <==> exists name :: name in hosts && name !in left && t in TagsIn(Value(), name)
        decreases left
      {
        var name :| name in left;
        left := left - {name};
        var own := TagsIn(Value(), name);
        all := all + set t | t in own;
      }
      tags := Sort(all);
    }
  }

  lemma {:induction false} StringsOfTagged(tags: seq<string>)
    ensures Strings(Tagged(tags)) == tags
  {
    if tags != [] {
      StringsOfTagged(tags[1..]);
      assert Tagged(tags)[1..] == Tagged(tags[1..]);
      assert tags == [tags[0]] + tags[1..];
    }
  }

  lemma {:induction false} WithoutExact(order: seq<string>, name: string, x: string)
    ensures x in Without(order, name) <==> x in order && x != name
  {
    if order != [] {
      WithoutExact(order[1..], name, x);
      assert order == [order[0]] + order[1..];
    }
  }

  lemma {:induction false} WithoutDistinct(order: seq<string>, name: string)
    requires Distinct(order)
    ensures Distinct(Without(order, name))
  {
    if order != [] {
      WithoutDistinct(order[1..], name);
      assert forall x :: x in order[1..] ==> x != order[0];
      forall x ensures x in Without(order[1..], name) ==> x != order[0] {
        WithoutExact(order[1..], name, x);
      }
      ConsDistinct(order[0], Without(order[1..], name));
    }
  }

  lemma ConsDistinct(x: string, xs: seq<string>)
    requires Distinct(xs) && x !in xs
    ensures Distinct([x] + xs)
  {
  }

  lemma SaveValid(store: Store, host: Host)
    requires Valid(store)
    ensures Valid(SaveJson(store, host))
  {
  }

  lemma DeleteValid(store: Store, name: string)
    requires Valid(store)
    ensures Valid(DeleteJson(store, name).0)
  {
    WithoutDistinct(store.order, name);
    forall x ensures x in Without(store.order, name) <==> x in store.hosts - {name} {
      WithoutExact(store.order, name, x);
    }
  }

  lemma {:induction false} FilteredExact(store: Store, order: seq<string>, tag: Option<string>, x: string)
    ensures x in Filtered(store, order, tag) <==> x in order && Matches(store, tag, x)
  {
    if order != [] {
      FilteredExact(store, order[1..], tag, x);
      assert order == [order[0]] + order[1..];
    }
  }

  lemma {:induction false} FilteredDistinct(store: Store, order: seq<string>, tag: Option<string>)
    requires Distinct(order)
    ensures Distinct(Filtered(store, order, tag))
  {
    if order != [] {
      FilteredDistinct(store, order[1..], tag);
      assert forall x :: x in order[1..] ==> x != order[0];
      FilteredExact(store, order[1..], tag, order[0]);
      if Matches(store, tag, order[0]) { ConsDistinct(order[0], Filtered(store, order[1..], tag)); }
    }
  }

  lemma {:induction false} ListAll(store: Store, order: seq<string>)
    ensures Filtered(store, order, None) == order
  {
    if order != [] {
      ListAll(store, order[1..]);
      assert order == [order[0]] + order[1..];
    }
  }

  lemma {:induction false} WithoutAppend(a: seq<string>, b: seq<string>, name: string)
    ensures Without(a + b, name) == Without(a, name) + Without(b, name)
  {
    if a == [] {
      assert a + b == b;
    } else {
      assert (a + b)[1..] == a[1..] + b;
      WithoutAppend(a[1..], b, name);
    }
  }

  lemma {:induction false} FilteredAppend(store: Store, a: seq<string>, b: seq<string>, tag: Option<string>)
    ensures Filtered(store, a + b, tag) == Filtered(store, a, tag) + Filtered(store, b, tag)
  {
    if a == [] {
      assert a + b == b;
    } else {
      assert (a + b)[1..] == a[1..] + b;
      FilteredAppend(store, a[1..], b, tag);
    }
  }

  /** Only `name` is matched differently, and it is left out. */
  lemma {:induction false} SameElsewhere(store: Store, store': Store, order: seq<string>, name: string, tag: Option<string>)
    requires forall x :: x != name ==> (Matches(store, tag, x) <==> Matches(store', tag, x))
    ensures Without(Filtered(store', order, tag), name) == Without(Filtered(store, order, tag), name)
  {
    if order != [] {
      SameElsewhere(store, store', order[1..], name, tag);
      WithoutAppend(if Matches(store, tag, order[0]) then [order[0]] else [], Filtered(store, order[1..], tag), name);
      WithoutAppend(if Matches(store', tag, order[0]) then [order[0]] else [], Filtered(store', order[1..], tag), name);
    }
  }

  lemma SaveListed(store: Store, host: Host, tag: Option<string>)
    ensures Without(ListJson(SaveJson(store, host), tag), host.name) == Without(ListJson(store, tag), host.name)
  {
    var store' := SaveJson(store, host);
    SameElsewhere(store, store', store.order, host.name, tag);
    if host.name !in store.hosts {
      FilteredAppend(store', store.order, [host.name], tag);
      WithoutAppend(Filtered(store', store.order, tag), Filtered(store', [host.name], tag), host.name);
      assert Without(Filtered(store', [host.name], tag), host.name) == [];
    }
  }

  lemma {:induction false} DeleteListed(store: Store, store': Store, order: seq<string>, name: string, tag: Option<string>)
    requires forall x :: x != name ==> (Matches(store, tag, x) <==> Matches(store', tag, x))
    ensures Filtered(store', Without(order, name), tag) == Without(Filtered(store, order, tag), name)
  {
    if order != [] {
      DeleteListed(store, store', order[1..], name, tag);
      FilteredAppend(store', if order[0] == name then [] else [order[0]], Without(order[1..], name), tag);
      WithoutAppend(if Matches(store, tag, order[0]) then [order[0]] else [], Filtered(store, order[1..], tag), name);
    }
  }
}
