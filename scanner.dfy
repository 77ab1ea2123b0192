/** `PluginManager._get_plugin_commands` and `_get_plugin_events`: select an
    instance's callable members that carry a recognised marker attribute. */
module Scanner {
  import opened Plugins
  import opened Sequences

  /** The attributes that make a method a command. */
  const CommandMarkers: set<string> := {"regex", "commands"}

  /** The attributes that make a method an event handler. */
  const EventMarkers: set<string> :=
    {"on_join", "on_part", "on_quit", "on_kick", "on_action", "on_topic", "on_nick", "on_invite"}

  /** `callable(m) and (hasattr(m, k1) or hasattr(m, k2) or ...)`. */
  predicate IsTagged(m: Member, markers: set<string>): (r: bool)
    ensures r <==> m.callable && exists k :: k in markers && k in m.markers
  {
    var shared := m.markers * markers;
    assert forall k :: k in markers && k in m.markers ==> k in shared;
    m.callable && shared != {}
  }

  /** The members, in `dir()` order, that carry one of the markers. */
  function Tagged(members: seq<Member>, markers: set<string>): (r: seq<Member>)
    ensures forall m :: m in r <==> m in members && IsTagged(m, markers)
    ensures |r| <= |members|
    decreases |members|
  {
    if members == [] then []
    else
      var last := members[|members| - 1];
      var init := members[..|members| - 1];
      assert members == init + [last];
      Tagged(init, markers) + (if IsTagged(last, markers) then [last] else [])
  }

  /** The selection keeps the members' order. */
  lemma {:induction false} TaggedInOrder(members: seq<Member>, markers: set<string>)
    ensures SubseqOf(Tagged(members, markers), members)
    decreases |members|
  {
    if members != [] {
      var last := members[|members| - 1];
      var init := members[..|members| - 1];
      assert init + [last] == members;
      TaggedInOrder(init, markers);
      SubseqExtend(Tagged(init, markers), init, last, IsTagged(last, markers));
      if IsTagged(last, markers) {
        assert Tagged(members, markers) == Tagged(init, markers) + [last];
      } else {
        assert Tagged(members, markers) == Tagged(init, markers);
      }
    }
  }

  /** `dir()` lists each attribute once, so any order-preserving selection of
      exactly the tagged members is `Tagged`: the scan result is fully
      determined by "in member order" and "exactly the tagged members". */
  lemma TaggedIsTheFilter(members: seq<Member>, markers: set<string>, r: seq<Member>)
    requires Distinct(members)
    requires SubseqOf(r, members)
    requires forall m :: m in r <==> m in members && IsTagged(m, markers)
    ensures r == Tagged(members, markers)
  {
    TaggedInOrder(members, markers);
    SubseqUnique(r, Tagged(members, markers), members);
  }

  /** The scanning loop shared by both scans: append each tagged member. */
  method ScanMembers(members: seq<Member>, markers: set<string>) returns (found: seq<Member>)
    ensures found == Tagged(members, markers)
  {
    found := [];
    for i := 0 to |members|
      invariant found == Tagged(members[..i], markers)
    {
      assert members[..i + 1][..i] == members[..i];
      if IsTagged(members[i], markers) {
        found := found + [members[i]];
      }
    }
    assert members[..|members|] == members;
  }

  /** `_get_plugin_commands(instance)`. */
  method GetPluginCommands(instance: Instance) returns (commands: seq<Member>)
    ensures commands == Tagged(instance.members, CommandMarkers)
    ensures forall m :: m in commands <==>
              m in instance.members && m.callable && ("regex" in m.markers || "commands" in m.markers)
  {
    commands := ScanMembers(instance.members, CommandMarkers);
    forall m: Member | "regex" in m.markers || "commands" in m.markers
      ensures m.markers * CommandMarkers != {}
    {
      var k := if "regex" in m.markers then "regex" else "commands";
      assert k in m.markers * CommandMarkers;
    }
  }

  /** `_get_plugin_events(instance)`. */
  method GetPluginEvents(instance: Instance) returns (events: seq<Member>)
    ensures events == Tagged(instance.members, EventMarkers)
    ensures forall m :: m in events <==>
              m in instance.members && m.callable && m.markers * EventMarkers != {}
  {
    events := ScanMembers(instance.members, EventMarkers);
  }

  /** The two scans are independent: a member carrying both kinds of marker
      is in both lists, and is not deduplicated away by either. */
  lemma BothScansIndependent(members: seq<Member>, m: Member, command: string, event: string)
    requires m in members && m.callable
    requires command in CommandMarkers && command in m.markers
    requires event in EventMarkers && event in m.markers
    ensures m in Tagged(members, CommandMarkers) && m in Tagged(members, EventMarkers)
  {
    assert command in m.markers * CommandMarkers;
    assert event in m.markers * EventMarkers;
  }
}
