/** Worked examples of the registry on concrete plugins. */
module Scenarios {
  import opened Plugins
  import opened Resolver
  import opened Builder
  import opened Scanner
  import opened Registry
  import opened LexOrder

  // A plugin "a" in the style of the last.fm plugin: `setup(cardinal)`, a
  // `close(self)`, and two methods tagged with `.commands` (and `.help`).
  const CloseA := Member("close", true, {})
  const NowPlaying := Member("now_playing", true, {"commands", "help"})
  const SetUser := Member("set_user", true, {"commands", "help"})
  const InstA := Instance(1, [CloseA, NowPlaying, SetUser], Some(CloseFn(1, false)))
  const ModA := Module("plugins.a.plugin", Some(SetupFn(1, false, InstA)))

  /** Scanning "a"'s instance finds its two commands and no event handler. */
  lemma ScansOfA()
    ensures Tagged(InstA.members, CommandMarkers) == [NowPlaying, SetUser]
    ensures Tagged(InstA.members, EventMarkers) == []
  {
    var members := InstA.members;
    assert members[..2][..1] == [CloseA] && members[..2] == [CloseA, NowPlaying];
    assert members[..1][..0] == [] && members[..3] == members;
    assert "commands" in NowPlaying.markers * CommandMarkers;
    assert "commands" in SetUser.markers * CommandMarkers;
    assert NowPlaying.markers * EventMarkers == {} && SetUser.markers * EventMarkers == {};
    assert Tagged(members[..1], CommandMarkers) == [] && Tagged(members[..1], EventMarkers) == [];
    assert Tagged(members[..2], CommandMarkers) == [NowPlaying];
    assert Tagged(members[..2], EventMarkers) == [];
  }

  /** The environment where only "a" has a code unit. */
  const EnvA := Env(map[UnitPath("a", PluginUnit) := Imported(ModA)], map[])
  /** What "a" loads to. */
  const RecA := PluginRecord(ModA, InstA, [NowPlaying, SetUser], [])

  /** Loading "a" into an empty registry calls `setup(cardinal)` and stores
      its record. */
  lemma LoadA(host: Host)
    ensures LoadStep(map[], "a", EnvA, host) == Step(map["a" := RecA], false, [SetupCall(ModA, WithHost(host))])
  {
    assert ImportModule(PluginTarget(map[], "a"), PluginUnit, EnvA) == Imported(ModA);
    assert CreatePluginInstance(ModA, host) == Invoked(Some(SetupCall(ModA, WithHost(host))), Ok(InstA));
    ScansOfA();
    assert NewRecord(ModA, InstA) == RecA;
  }

  /** "b" has no code unit, so loading it fails without calling anything. */
  lemma LoadBFails(host: Host)
    ensures LoadStep(map["a" := RecA], "b", EnvA, host) == Step(map["a" := RecA], true, [])
  {
    assert UnitPath("b", PluginUnit) != UnitPath("a", PluginUnit) by {
      assert UnitPath("b", PluginUnit)[8] != UnitPath("a", PluginUnit)[8];
    }
  }

  /** The batch ["a"] from an empty registry. */
  lemma LoadJustA(host: Host)
    ensures LoadAll(map[], ["a"], EnvA, host) == Batch(map["a" := RecA], [], [SetupCall(ModA, WithHost(host))])
  {
    LoadA(host);
    LoadAllSingle(map[], "a", EnvA, host);
  }

  /** The batch ["a", "b"] from an empty registry. */
  lemma LoadAB(host: Host)
    ensures LoadAll(map[], ["a", "b"], EnvA, host)
              == Batch(map["a" := RecA], ["b"], [SetupCall(ModA, WithHost(host))])
  {
    assert ["a", "b"][..1] == ["a"];
    LoadJustA(host);
    LoadBFails(host);
    LoadAllSnoc(map[], ["a", "b"], 1, EnvA, host);
    assert ["a", "b"][..2] == ["a", "b"];
  }

  /** A registry holding "a" alone is iterated as ["a"]. */
  lemma SortedKeysOfA()
    ensures SortedKeys(map["a" := RecA].Keys) == ["a"]
  {
    assert map["a" := RecA].Keys == {"a"};
    SortedUnique(SortedKeys({"a"}), ["a"]);
  }

  /** "a" imports and builds, "b" has no code unit: only "b" fails, and
      iteration then yields the one record for "a", with both commands. */
  lemma MixedBatch(host: Host)
    ensures var b := LoadAll(map[], ["a", "b"], EnvA, host);
            && b.failed == ["b"]
            && SortedKeys(b.plugins.Keys) == ["a"]
            && b.plugins["a"] == PluginRecord(ModA, InstA, [NowPlaying, SetUser], [])
            && b.calls == [SetupCall(ModA, WithHost(host))]
  {
    LoadAB(host);
    SortedKeysOfA();
  }

  // Plugin "x" before and after its source changed: the reloaded unit's
  // `setup()` takes no argument and its one method is now an event handler.
  const Greet := Member("greet", true, {"commands"})
  const Greet2 := Member("greet", true, {"on_join"})
  const InstX := Instance(1, [Greet], Some(CloseFn(2, false)))
  const InstX2 := Instance(2, [Greet2], None)
  const ModX := Module("plugins.x.plugin", Some(SetupFn(1, false, InstX)))
  const ModX2 := Module("plugins.x.plugin", Some(SetupFn(0, false, InstX2)))

  /** The stored record of "x", and the environment after its change. */
  const RecX := NewRecord(ModX, InstX)
  const EnvX := Env(map[], map[ModX := Imported(ModX2)])

  /** The new instance of "x" has one event handler and no command. */
  lemma ScansOfX2()
    ensures Tagged(InstX2.members, EventMarkers) == [Greet2]
    ensures Tagged(InstX2.members, CommandMarkers) == []
  {
    assert [Greet2][..0] == [];
    assert "on_join" in Greet2.markers * EventMarkers;
    assert Greet2.markers * CommandMarkers == {};
  }

  /** The one step of reloading "x": new `setup()`, then the old
      `close(self, cardinal)`, then the new record. */
  lemma ReloadX(host: Host)
    ensures LoadStep(map["x" := RecX], "x", EnvX, host)
              == Step(map["x" := PluginRecord(ModX2, InstX2, [], [Greet2])], false,
                      [SetupCall(ModX2, NoArgs), CloseCall("x", InstX, WithHost(host))])
  {
    var p := map["x" := RecX];
    ScansOfX2();
    ReloadReplacesOnce(p, "x", EnvX, host);
    assert LoadStep(p, "x", EnvX, host).plugins.Keys == {"x"};
  }

  /** Loading "x" again after its code changed re-executes the stored module,
      closes the old instance once (with the bot, as `close(self, cardinal)`
      asks), and leaves one record whose scans reflect the new tagging. */
  lemma HotReload(host: Host)
    ensures var b := LoadAll(map["x" := RecX], ["x"], EnvX, host);
            && b.failed == []
            && b.plugins == map["x" := PluginRecord(ModX2, InstX2, [], [Greet2])]
            && b.calls == [SetupCall(ModX2, NoArgs), CloseCall("x", InstX, WithHost(host))]
  {
    ReloadX(host);
    LoadAllSingle(map["x" := RecX], "x", EnvX, host);
  }

  /** Unloading ["a", "z"] when only "a" is loaded: "z" fails, "a" is closed
      and gone. */
  lemma UnloadMissingName(host: Host)
    ensures var p := map["a" := NewRecord(ModA, InstA)];
            var b := UnloadAll(p, ["a", "z"], host);
            && b.failed == ["z"]
            && b.plugins == map[]
            && b.calls == [CloseCall("a", InstA, NoArgs)]
  {
    var p := map["a" := NewRecord(ModA, InstA)];
    assert ["a", "z"][..1] == ["a"] && ["a"][..0] == [];
    assert p - {"a"} == map[];
  }
}
