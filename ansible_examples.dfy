/**
 * The expected documents of the unit tests in src/ansible.rs, stated about the
 * document functions and checked through the builder's contracts.
 */
module AnsibleExamples {
  import opened Wrappers
  import opened Ansible

  /** The reserved entries once `foo` and `baz` exist, in that order. */
  function FooBazEntries(): map<string, Group> {
    Empty().entries[ALL := Group(Some([UNGROUPED, "foo", "baz"]), None, None)]
  }

  /** The expected document of `test_add_group`: `foo` and `baz` once each, in first-added order. */
  lemma AddGroupFixture()
    ensures WithGroups(Empty(), ["foo", "baz", "foo"])
      == Document(FooBazEntries()["foo" := NEW_GROUP]["baz" := NEW_GROUP], map[])
  {
    var names := ["foo", "baz", "foo"];
    var e := Empty();
    assert WithGroups(e, names[..1]) == WithGroup(e, "foo") by {
      assert names[..1][..0] == [];
    }
    assert WithGroups(e, names[..2]) == WithGroup(WithGroup(e, "foo"), "baz") by {
      assert names[..2][..1] == names[..1];
    }
    assert names[..3][..2] == names[..2];
    assert [UNGROUPED] + ["foo"] == [UNGROUPED, "foo"];
    assert [UNGROUPED, "foo"] + ["baz"] == [UNGROUPED, "foo", "baz"];
    var d1 := WithGroup(e, "foo");
    assert d1.entries == e.entries["foo" := NEW_GROUP][ALL := Group(Some([UNGROUPED, "foo"]), None, None)];
    var d2 := WithGroup(d1, "baz");
    assert d2.entries == d1.entries["baz" := NEW_GROUP][ALL := Group(Some([UNGROUPED, "foo", "baz"]), None, None)];
    assert WithGroup(d2, "foo") == d2;
  }

  /** `test_add_group_var`, first two calls: each creates its group and sets one var. */
  lemma GroupVarFixtureCreates()
    ensures WithGroupVar(WithGroupVar(Empty(), "foo", "no", Num(69)), "baz", "hello", Str("world"))
      == Document(FooBazEntries()
           ["foo" := Group(Some([]), Some(map["no" := Num(69)]), None)]
           ["baz" := Group(Some([]), Some(map["hello" := Str("world")]), None)], map[])
  {
    var e := Empty();
    var foo1 := Group(Some([]), Some(map["no" := Num(69)]), None);
    var x1 := Document(e.entries[ALL := Group(Some([UNGROUPED, "foo"]), None, None)]["foo" := foo1], map[]);
    assert WithGroupVar(e, "foo", "no", Num(69)) == x1 by {
      assert [UNGROUPED] + ["foo"] == [UNGROUPED, "foo"];
    }
    assert [UNGROUPED, "foo"] + ["baz"] == [UNGROUPED, "foo", "baz"];
  }

  /** `test_add_group_var`, last three calls: vars join existing groups, earlier vars stay. */
  lemma GroupVarFixtureExtends()
    ensures
      var d2 := Document(FooBazEntries()
        ["foo" := Group(Some([]), Some(map["no" := Num(69)]), None)]
        ["baz" := Group(Some([]), Some(map["hello" := Str("world")]), None)], map[]);
      var d3 := WithGroupVar(d2, "baz", "favorite", Num(100));
      var d4 := WithGroupVar(d3, "foo", "in", Str("the"));
      WithGroupVar(d4, "foo", "champagne", Str("room")) == Document(FooBazEntries()
        ["foo" := Group(Some([]), Some(map["no" := Num(69), "in" := Str("the"), "champagne" := Str("room")]), None)]
        ["baz" := Group(Some([]), Some(map["hello" := Str("world"), "favorite" := Num(100)]), None)], map[])
  {
  }

  /** The expected document of `test_add_group_var`: later vars join, earlier ones stay. */
  lemma AddGroupVarFixture()
    ensures
      var d1 := WithGroupVar(Empty(), "foo", "no", Num(69));
      var d2 := WithGroupVar(d1, "baz", "hello", Str("world"));
      var d3 := WithGroupVar(d2, "baz", "favorite", Num(100));
      var d4 := WithGroupVar(d3, "foo", "in", Str("the"));
      var d5 := WithGroupVar(d4, "foo", "champagne", Str("room"));
      d5 == Document(FooBazEntries()
        ["foo" := Group(Some([]), Some(map["no" := Num(69), "in" := Str("the"), "champagne" := Str("room")]), None)]
        ["baz" := Group(Some([]), Some(map["hello" := Str("world"), "favorite" := Num(100)]), None)], map[])
  {
    GroupVarFixtureCreates();
    GroupVarFixtureExtends();
  }

  /**
   * `add_host` as written stores the placeholder, not the host: after
   * `add_host(None, "web1")` on a new inventory, `ungrouped.hosts` is
   * `["host"]` where `["web1"]` was meant.
   */
  lemma HostPlaceholderCounterexample()
    ensures WithHostEntry(Empty(), None, HOST_PLACEHOLDER).entries[UNGROUPED].hosts == Some(["host"])
  {
    var e := Empty();
    assert WithGroup(e, UNGROUPED) == e;
    assert HostsOf(e.entries[UNGROUPED]) == [];
    assert [] + [HOST_PLACEHOLDER] == ["host"];
  }

  /** With the host pushed as intended, each group lists its own hosts. */
  lemma AddHostScenario()
    ensures
      var d1 := WithHostEntry(Empty(), None, "web1");
      var d2 := WithHostEntry(d1, Some("db"), "db1");
      && d2.entries[UNGROUPED].hosts == Some(["web1"])
      && d2.entries["db"].hosts == Some(["db1"])
      && AllChildren(d2) == [UNGROUPED, "db"]
  {
    var e := Empty();
    assert WithGroup(e, UNGROUPED) == e;
    assert HostsOf(e.entries[UNGROUPED]) == [];
    var d1 := WithHostEntry(e, None, "web1");
    assert d1.entries[UNGROUPED].hosts == Some(["web1"]) by {
      assert [] + ["web1"] == ["web1"];
    }
    assert "db" !in d1.entries;
    assert HostsOf(WithGroup(d1, "db").entries["db"]) == [];
    assert [] + ["db1"] == ["db1"];
    assert [UNGROUPED] + ["db"] == [UNGROUPED, "db"];
  }

  /** `test_add_group`, verified against the builder's contracts. */
  method AddGroupClient() returns (doc: Document)
    ensures WellShaped(doc) && AllChildren(doc) == [UNGROUPED, "foo", "baz"]
    ensures "foo" in doc.entries && doc.entries["foo"] == NEW_GROUP
    ensures "baz" in doc.entries && doc.entries["baz"] == NEW_GROUP
  {
    var inv := new Inventory();
    inv.AddGroup("foo");
    inv.AddGroup("baz");
    inv.AddGroup("foo");
    assert AllChildren(inv.Doc()) == [UNGROUPED, "foo", "baz"];
    assert inv.entries["foo"] == NEW_GROUP && inv.entries["baz"] == NEW_GROUP;
    doc := inv.Doc();
  }

  /** `add_host` on a group that already has hosts keeps them, in order. */
  method AddHostClient() returns (doc: Document)
    ensures WellShaped(doc) && AllChildren(doc) == [UNGROUPED, "db"]
    ensures "db" in doc.entries && doc.entries["db"].hosts == Some(["db1", "db2"])
    ensures UNGROUPED in doc.entries && doc.entries[UNGROUPED].hosts == Some(["web1"])
  {
    var inv := new Inventory();
    assert "db" !in inv.entries;
    inv.AddHost(Some("db"), "db1");
    assert inv.entries["db"].hosts == Some(["db1"]) by {
      assert [] + ["db1"] == ["db1"];
    }
    inv.AddHost(Some("db"), "db2");
    assert inv.entries["db"].hosts == Some(["db1", "db2"]) by {
      assert ["db1"] + ["db2"] == ["db1", "db2"];
    }
    assert inv.entries[UNGROUPED].hosts == None;
    inv.AddHost(None, "web1");
    assert inv.entries["db"].hosts == Some(["db1", "db2"]);
    assert inv.entries[UNGROUPED].hosts == Some(["web1"]) by {
      assert [] + ["web1"] == ["web1"];
    }
    assert AllChildren(inv.Doc()) == [UNGROUPED, "db"] by {
      assert [UNGROUPED] + ["db"] == [UNGROUPED, "db"];
    }
    doc := inv.Doc();
  }

  /** `add_host(None, "web1")` as written stores the placeholder in `ungrouped.hosts`. */
  method AddHostAsWrittenClient() returns (doc: Document)
    ensures UNGROUPED in doc.entries && doc.entries[UNGROUPED].hosts == Some(["host"])
  {
    var inv := new Inventory();
    inv.AddHostAsWritten(None, "web1");
    assert inv.entries[UNGROUPED].hosts == Some(["host"]) by {
      HostPlaceholderCounterexample();
    }
    doc := inv.Doc();
  }
}
