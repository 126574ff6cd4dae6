/**
 * The Ansible dynamic-inventory document and the in-place builder that
 * grows it (src/ansible.rs).
 *
 * The source keeps the document as one untyped JSON object. Here it is a
 * typed record: `entries` maps every top-level key to the object stored under
 * it, `_meta` included, because the source looks every name up in the same
 * top-level object (so `add_group("_meta")` and `add_group("all")` find the
 * key and do nothing). The one member of `_meta` that no group has,
 * `hostvars`, is a field of its own. A member the JSON object may lack is an
 * `Option`.
 */
module Ansible {
  import opened Wrappers

  const ALL: string := "all"
  const UNGROUPED: string := "ungrouped"
  const META: string := "_meta"

  /** The string `add_host` pushes onto a group's hosts whatever host it is given. */
  const HOST_PLACEHOLDER: string := "host"

  /** A JSON value, as stored under a group var (numbers are integers here). */
  datatype Json =
    | Null
    | Bool(b: bool)
    | Num(n: int)
    | Str(s: string)
    | Arr(items: seq<Json>)
    | Obj(fields: map<string, Json>)

  /** The object under one top-level key; `None` is a member the object does not have. */
  datatype Group = Group(
    children: Option<seq<string>>,
    vars: Option<map<string, Json>>,
    hosts: Option<seq<string>>)

  /** What `add_group` writes for a group it creates: `{"children": [], "vars": {}}`. */
  const NEW_GROUP: Group := Group(Some([]), Some(map[]), None)

  datatype Document = Document(
    entries: map<string, Group>,
    hostvars: map<string, map<string, Json>>)

  /** The group's vars, an absent `vars` member read as the empty object. */
  function VarsOf(g: Group): (r: map<string, Json>) {
    if g.vars.Some? then g.vars.value else map[]
  }

  /** The group's hosts, an absent `hosts` member read as the empty array. */
  function HostsOf(g: Group): (r: seq<string>) {
    if g.hosts.Some? then g.hosts.value else []
  }

  /** What `add_group` asserts before it pushes: `all.children` is an array. */
  predicate WellShaped(d: Document) {
    ALL in d.entries && d.entries[ALL].children.Some?
  }

  function AllChildren(d: Document): (r: seq<string>)
    requires WellShaped(d)
  {
    d.entries[ALL].children.value
  }

  predicate NoDuplicates(s: seq<string>) {
    forall i, j :: 0 <= i < j < |s| ==> s[i] != s[j]
  }

  /**
   * The shape every document the builder produces keeps: the three reserved
   * keys exist, `_meta` has no `children`, every other group has an empty
   * `children` except `all`, and `all.children` starts with `ungrouped`, has
   * no duplicates and lists exactly the groups other than `all` and `_meta`.
   */
  ghost predicate Invariant(d: Document) {
    && META in d.entries && ALL in d.entries && UNGROUPED in d.entries
    && d.entries[META].children.None?
    && d.entries[ALL].children.Some?
    && (forall g :: g in d.entries && g != META && g != ALL ==> d.entries[g].children == Some([]))
    && var kids := d.entries[ALL].children.value;
       && |kids| > 0 && kids[0] == UNGROUPED
       && NoDuplicates(kids)
       && (forall g :: g in kids <==> g in d.entries && g != ALL && g != META)
  }

  /** `Inventory::new`: the minimum valid inventory. */
  function Empty(): (d: Document)
    ensures Invariant(d)
    ensures d.entries.Keys == {META, ALL, UNGROUPED}
    ensures AllChildren(d) == [UNGROUPED]
    ensures forall g :: g in d.entries ==> d.entries[g].vars.None? && d.entries[g].hosts.None?
    ensures d.hostvars == map[]
  {
    Document(
      map[META := Group(None, None, None),
          ALL := Group(Some([UNGROUPED]), None, None),
          UNGROUPED := Group(Some([]), None, None)],
      map[])
  }

  /** `add_group`: the document after adding `group` if it is not a top-level key yet. */
  function WithGroup(d: Document, group: string): (r: Document)
    requires WellShaped(d)
    ensures WellShaped(r) && group in r.entries && r.hostvars == d.hostvars
    ensures group in d.entries ==> r == d
    ensures group !in d.entries ==>
      && r.entries.Keys == d.entries.Keys + {group}
      && r.entries[group] == NEW_GROUP
      && AllChildren(r) == AllChildren(d) + [group]
      && r.entries[ALL].vars == d.entries[ALL].vars
      && r.entries[ALL].hosts == d.entries[ALL].hosts
      && (forall g :: g in d.entries && g != ALL ==> r.entries[g] == d.entries[g])
  {
    if group in d.entries then d
    else
      var created := d.entries[group := NEW_GROUP];
      var all := created[ALL];
      d.(entries := created[ALL := all.(children := Some(all.children.value + [group]))])
  }

  /** `add_group_var`: `add_group(group)`, then `group.vars[key] := value`. */
  function WithGroupVar(d: Document, group: string, key: string, value: Json): (r: Document)
    requires WellShaped(d)
    ensures WellShaped(r) && r.hostvars == d.hostvars
    ensures var base := WithGroup(d, group);
      && r.entries.Keys == base.entries.Keys
      && (forall g :: g in base.entries && g != group ==> r.entries[g] == base.entries[g])
      && r.entries[group].children == base.entries[group].children
      && r.entries[group].hosts == base.entries[group].hosts
      && r.entries[group].vars.Some?
      && VarsOf(r.entries[group]).Keys == VarsOf(base.entries[group]).Keys + {key}
      && VarsOf(r.entries[group])[key] == value
      && (forall k :: k in VarsOf(base.entries[group]) && k != key ==>
            VarsOf(r.entries[group])[k] == VarsOf(base.entries[group])[k])
  {
    var base := WithGroup(d, group);
    var g := base.entries[group];
    base.(entries := base.entries[group := g.(vars := Some(VarsOf(g)[key := value]))])
  }

  /** The group `add_host` targets: `ungrouped` when none is given. */
  function Target(group: Option<string>): (name: string)
    ensures group.None? ==> name == UNGROUPED
    ensures group.Some? ==> name == group.value
  {
    if group.Some? then group.value else UNGROUPED
  }

  /**
   * `add_host` with the string it pushes as a parameter: `add_group` on the
   * target, create its `hosts` array if absent, then push `entry` onto it.
   */
  function WithHostEntry(d: Document, group: Option<string>, entry: string): (r: Document)
    requires WellShaped(d)
    ensures WellShaped(r) && r.hostvars == d.hostvars
    ensures var name := Target(group); var base := WithGroup(d, name);
      && r.entries.Keys == base.entries.Keys
      && (forall g :: g in base.entries && g != name ==> r.entries[g] == base.entries[g])
      && r.entries[name].children == base.entries[name].children
      && r.entries[name].vars == base.entries[name].vars
      && r.entries[name].hosts == Some(HostsOf(base.entries[name]) + [entry])
  {
    var name := Target(group);
    var base := WithGroup(d, name);
    var g := base.entries[name];
    base.(entries := base.entries[name := g.(hosts := Some(HostsOf(g) + [entry]))])
  }

  /** The document after `add_group` on each of `names`, in order. */
  function WithGroups(d: Document, names: seq<string>): (r: Document)
    requires WellShaped(d)
    ensures WellShaped(r) && r.hostvars == d.hostvars
    decreases |names|
  {
    if names == [] then d
    else WithGroup(WithGroups(d, names[..|names| - 1]), names[|names| - 1])
  }

  /**
   * A reference definition of the order `all.children` grows in: each
   * `names[i]` that is neither in `present` nor among `names[..i]`, in order.
   */
  function FirstOccurrences(present: set<string>, names: seq<string>): (r: seq<string>)
    decreases |names|
  {
    if names == [] then []
    else
      var init, last := names[..|names| - 1], names[|names| - 1];
      FirstOccurrences(present, init) + (if last in present || last in init then [] else [last])
  }

  lemma WithGroupPreservesInvariant(d: Document, group: string)
    requires Invariant(d)
    ensures Invariant(WithGroup(d, group))
  {
  }

  lemma WithGroupVarPreservesInvariant(d: Document, group: string, key: string, value: Json)
    requires Invariant(d)
    ensures Invariant(WithGroupVar(d, group, key, value))
  {
  }

  lemma WithHostEntryPreservesInvariant(d: Document, group: Option<string>, entry: string)
    requires Invariant(d)
    ensures Invariant(WithHostEntry(d, group, entry))
  {
  }

  /** Any run of `add_group` calls keeps the invariant. */
  lemma {:induction false} WithGroupsPreservesInvariant(d: Document, names: seq<string>)
    requires Invariant(d)
    ensures Invariant(WithGroups(d, names))
  {
    if names != [] {
      WithGroupsPreservesInvariant(d, names[..|names| - 1]);
      WithGroupPreservesInvariant(WithGroups(d, names[..|names| - 1]), names[|names| - 1]);
    }
  }

  /** Any run of `add_group` calls adds exactly the named top-level keys. */
  lemma {:induction false} WithGroupsKeys(d: Document, names: seq<string>)
    requires WellShaped(d)
    ensures WithGroups(d, names).entries.Keys == d.entries.Keys + set n | n in names
  {
    if names != [] {
      var init, last := names[..|names| - 1], names[|names| - 1];
      assert names == init + [last];
      WithGroupsKeys(d, init);
      assert (set n | n in names) == (set n | n in init) + {last};
    }
  }

  /**
   * Any run of `add_group` calls extends `all.children` by the names not yet
   * present, in first-occurrence order.
   */
  lemma {:induction false} WithGroupsExtendsChildren(d: Document, names: seq<string>)
    requires WellShaped(d)
    ensures AllChildren(WithGroups(d, names)) == AllChildren(d) + FirstOccurrences(d.entries.Keys, names)
  {
    if names != [] {
      var init, last := names[..|names| - 1], names[|names| - 1];
      WithGroupsExtendsChildren(d, init);
      WithGroupsKeys(d, init);
      var before := WithGroups(d, init);
      assert last in before.entries <==> last in d.entries.Keys || last in init;
    }
  }

  /** The reference order has no duplicates and holds exactly the names not already present. */
  lemma {:induction false} FirstOccurrencesDistinct(present: set<string>, names: seq<string>)
    ensures NoDuplicates(FirstOccurrences(present, names))
    ensures forall n :: n in FirstOccurrences(present, names) <==> n in names && n !in present
  {
    if names != [] {
      var init, last := names[..|names| - 1], names[|names| - 1];
      assert names == init + [last];
      FirstOccurrencesDistinct(present, init);
      var prefix := FirstOccurrences(present, init);
      if !(last in present || last in init) {
        assert last !in prefix;
        var s := prefix + [last];
        forall i, j | 0 <= i < j < |s| ensures s[i] != s[j] {
          if j == |prefix| {
            assert s[i] == prefix[i];
          }
        }
      }
    }
  }

  /**
   * From a new inventory, after any run of `add_group` calls `all.children`
   * is `ungrouped` followed by the added names in first-occurrence order,
   * without duplicates.
   */
  lemma NewThenGroups(names: seq<string>)
    ensures var kids := AllChildren(WithGroups(Empty(), names));
      && kids == [UNGROUPED] + FirstOccurrences({META, ALL, UNGROUPED}, names)
      && kids[0] == UNGROUPED
      && NoDuplicates(kids)
      && forall n :: n in names && n != META && n != ALL ==> n in kids
  {
    WithGroupsExtendsChildren(Empty(), names);
    WithGroupsPreservesInvariant(Empty(), names);
    FirstOccurrencesDistinct({META, ALL, UNGROUPED}, names);
  }

  /** A second `add_group_var` with the same group and key overwrites the first. */
  lemma GroupVarOverwrites(d: Document, group: string, key: string, v1: Json, v2: Json)
    requires WellShaped(d)
    ensures WithGroupVar(WithGroupVar(d, group, key, v1), group, key, v2) == WithGroupVar(d, group, key, v2)
  {
    var once := WithGroupVar(d, group, key, v1);
    var twice := WithGroupVar(once, group, key, v2);
    var direct := WithGroupVar(d, group, key, v2);
    assert VarsOf(twice.entries[group]) == VarsOf(direct.entries[group]);
    assert twice.entries[group] == direct.entries[group];
    assert twice.entries == direct.entries;
  }

  /**
   * `add_group_var` never lists its group in `all.children` twice: it lists
   * it exactly once, however many vars were set on it before.
   */
  lemma GroupVarListedOnce(d: Document, group: string, key: string, value: Json)
    requires Invariant(d)
    requires group != ALL && group != META
    ensures var r := WithGroupVar(d, group, key, value);
      && Invariant(r)
      && AllChildren(r) == AllChildren(WithGroup(d, group))
      && (exists i :: 0 <= i < |AllChildren(r)| && AllChildren(r)[i] == group)
      && (forall i, j :: 0 <= i < j < |AllChildren(r)| && AllChildren(r)[i] == group ==>
            AllChildren(r)[j] != group)
  {
  }

  /**
   * `add_host(None, _)` targets `ungrouped`, which a valid document already
   * has: `all.children` and every other entry stay as they were.
   */
  lemma DefaultHostKeepsGroups(d: Document, entry: string)
    requires Invariant(d)
    ensures var r := WithHostEntry(d, None, entry);
      && r.entries.Keys == d.entries.Keys
      && AllChildren(r) == AllChildren(d)
      && r.entries[UNGROUPED].hosts == Some(HostsOf(d.entries[UNGROUPED]) + [entry])
      && r.entries[UNGROUPED].vars == d.entries[UNGROUPED].vars
      && forall g :: g in d.entries && g != UNGROUPED ==> r.entries[g] == d.entries[g]
  {
  }

  /**
   * The in-place builder. Its state is the document; every method keeps the
   * invariant and leaves the document the matching function describes.
   */
  class Inventory {
    var entries: map<string, Group>
    var hostvars: map<string, map<string, Json>>

    function Doc(): (r: Document)
      reads this
    {
      Document(entries, hostvars)
    }

    ghost predicate Valid()
      reads this
    {
      Invariant(Doc())
    }

    constructor ()
      ensures Valid()
      ensures Doc() == Empty()
    {
      var d := Empty();
      entries := d.entries;
      hostvars := d.hostvars;
    }

    /** Add the group if it does not exist, and list it under `all.children`. */
    method AddGroup(group: string)
      requires Valid()
      modifies this
      ensures Valid()
      ensures Doc() == WithGroup(old(Doc()), group)
    {
      WithGroupPreservesInvariant(Doc(), group);
      if group in entries {
        return;
      }
      entries := entries[group := NEW_GROUP];
      var all := entries[ALL];
      entries := entries[ALL := all.(children := Some(all.children.value + [group]))];
    }

    /** Set one group var, adding the group if it does not exist. */
    method AddGroupVar(group: string, key: string, value: Json)
      requires Valid()
      modifies this
      ensures Valid()
      ensures Doc() == WithGroupVar(old(Doc()), group, key, value)
    {
      WithGroupVarPreservesInvariant(Doc(), group, key, value);
      AddGroup(group);
      var g := entries[group];
      var vars := if g.vars.Some? then g.vars.value else map[];
      entries := entries[group := g.(vars := Some(vars[key := value]))];
    }

    /**
     * The body of `add_host` with the pushed string as a parameter: add the
     * target group, create its `hosts` array if absent, push `entry`.
     */
    method PushHost(group: Option<string>, entry: string)
      requires Valid()
      modifies this
      ensures Valid()
      ensures Doc() == WithHostEntry(old(Doc()), group, entry)
    {
      WithHostEntryPreservesInvariant(Doc(), group, entry);
      var name := if group.Some? then group.value else UNGROUPED;
      AddGroup(name);
      var g := entries[name];
      if g.hosts.None? {
        g := g.(hosts := Some([]));
        entries := entries[name := g];
      }
      entries := entries[name := g.(hosts := Some(g.hosts.value + [entry]))];
    }

    /**
     * `add_host` as written: whatever `host` is, the string pushed is the
     * placeholder `"host"`.
     */
    method AddHostAsWritten(group: Option<string>, host: string)
      requires Valid()
      modifies this
      ensures Valid()
      ensures Doc() == WithHostEntry(old(Doc()), group, HOST_PLACEHOLDER)
    {
      PushHost(group, HOST_PLACEHOLDER);
    }

    /** `add_host` as intended: push the host it is given. */
    method AddHost(group: Option<string>, host: string)
      requires Valid()
      modifies this
      ensures Valid()
      ensures Doc() == WithHostEntry(old(Doc()), group, host)
    {
      PushHost(group, host);
    }
  }
}
