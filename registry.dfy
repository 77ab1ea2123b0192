/** What `PluginManager.load` and `unload` do to the registry, as functions
    of the registry before the call. The class in `plugin_manager.dfy` is
    proved to follow them; the lemmas here state what they guarantee. */
module Registry {
  import opened Plugins
  import opened Resolver
  import opened Builder
  import opened Scanner
  import opened Sequences
  import opened LexOrder

  /** The registry's dictionary: plugin name to record. */
  type Table = map<string, PluginRecord>

  function Elems(names: seq<string>): set<string>
  {
    set n | n in names
  }

  /** A record's command and event lists are the scans of its own instance:
      never stale, never partial. */
  ghost predicate Scanned(rec: PluginRecord)
  {
    && rec.commands == Tagged(rec.instance.members, CommandMarkers)
    && rec.events == Tagged(rec.instance.members, EventMarkers)
  }

  /** Every record of the table is `Scanned`. */
  ghost predicate Coherent(t: Table)
  {
    forall x :: x in t ==> Scanned(t[x])
  }

  /** The shared argument check of `load` and `unload`: a string becomes a
      one-element list, a list is taken as it is, anything else is a
      `ValueError`. */
  function NormaliseArg(arg: PluginsArg): (r: Result<seq<string>>)
    ensures arg.NameArg? ==> r == Ok([arg.name])
    ensures arg.ListArg? ==> r == Ok(arg.names)
    ensures r.Err? <==> arg.OtherArg?
    ensures r.Err? ==> r.error == InvalidArgument
  {
    match arg
    case NameArg(name) => Ok([name])
    case ListArg(names) => Ok(names)
    case OtherArg => Err(InvalidArgument)
  }

  /** The effect of handling one name: the new table, whether the name goes
      on the failure list, and the plugin callbacks invoked, in order. */
  datatype Step = Step(plugins: Table, failed: bool, calls: seq<Callback>)

  /** The effect of a whole batch: the new table, the failure list, and the
      plugin callbacks invoked, in order. */
  datatype Batch = Batch(plugins: Table, failed: seq<string>, calls: seq<Callback>)

  function CallsOf(call: Option<Callback>): seq<Callback>
  {
    match call
    case None => []
    case Some(c) => [c]
  }

  // ---------------------------------------------------------------- unload

  /** One iteration of `unload`'s loop, with the teardown block run as
      intended: a name not loaded fails; a loaded name has its instance
      closed, fails if closing fails, and is removed either way. */
  function UnloadStep(p: Table, name: string, host: Host): (s: Step)
    ensures s.plugins == p - {name}
    ensures name !in p ==> s.failed && s.calls == []
    ensures name in p ==> s.calls == CallsOf(ClosePluginInstance(name, p[name], host).call)
    ensures name in p ==> (s.failed <==> ClosePluginInstance(name, p[name], host).result.Err?)
  {
    if name !in p then Step(p, true, [])
    else
      var closed := ClosePluginInstance(name, p[name], host);
      Step(p - {name}, closed.result.Err?, CallsOf(closed.call))
  }

  /** `unload(names)` after normalisation: the steps applied in list order. */
  function UnloadAll(p: Table, names: seq<string>, host: Host): (b: Batch)
    ensures b.plugins == p - Elems(names)
    ensures forall x :: x in b.failed ==> x in names
    ensures forall x :: x in names && x !in p ==> x in b.failed
    decreases |names|
  {
    if names == [] then Batch(p, [], [])
    else
      var init, last := names[..|names| - 1], names[|names| - 1];
      assert names == init + [last];
      assert Elems(names) == Elems(init) + {last};
      var prev := UnloadAll(p, init, host);
      var s := UnloadStep(prev.plugins, last, host);
      Batch(s.plugins, prev.failed + (if s.failed then [last] else []), prev.calls + s.calls)
  }

  /** Unloading one more name is one more step. */
  lemma UnloadAllSnoc(p: Table, names: seq<string>, i: nat, host: Host)
    requires i < |names|
    ensures var prev := UnloadAll(p, names[..i], host);
            var s := UnloadStep(prev.plugins, names[i], host);
            UnloadAll(p, names[..i + 1], host)
              == Batch(s.plugins, prev.failed + (if s.failed then [names[i]] else []), prev.calls + s.calls)
  {
    assert names[..i + 1][..i] == names[..i];
  }

  /** Unloading keeps the failure list in input order. */
  lemma {:induction false} UnloadFailedInOrder(p: Table, names: seq<string>, host: Host)
    ensures SubseqOf(UnloadAll(p, names, host).failed, names)
    decreases |names|
  {
    if names != [] {
      var init, last := names[..|names| - 1], names[|names| - 1];
      assert names == init + [last];
      var prev := UnloadAll(p, init, host);
      var s := UnloadStep(prev.plugins, last, host);
      UnloadFailedInOrder(p, init, host);
      SubseqExtend(prev.failed, init, last, s.failed);
      if !s.failed {
        assert UnloadAll(p, names, host).failed == prev.failed;
      }
    }
  }

  /** For a list without repetitions, the failure list holds exactly the
      names that were not loaded and the names whose `close` failed. */
  lemma {:induction false} UnloadFailedExactly(p: Table, names: seq<string>, host: Host)
    requires Distinct(names)
    ensures forall x :: x in UnloadAll(p, names, host).failed <==>
              x in names && (x !in p || ClosePluginInstance(x, p[x], host).result.Err?)
    decreases |names|
  {
    if names != [] {
      var init, last := names[..|names| - 1], names[|names| - 1];
      assert names == init + [last];
      assert Distinct(init);
      assert last !in init;
      var prev := UnloadAll(p, init, host);
      UnloadFailedExactly(p, init, host);
      assert last in p ==> last in prev.plugins && prev.plugins[last] == p[last];
    }
  }

  /** Unloading keeps every remaining record as it was. */
  lemma UnloadPreservesCoherent(p: Table, names: seq<string>, host: Host)
    requires Coherent(p)
    ensures Coherent(UnloadAll(p, names, host).plugins)
  {
  }

  /** `unload` as the source is written: the teardown block sits after
      `continue` and never runs, so no instance is closed and only names
      that were not loaded fail. */
  function UnloadAsWrittenAll(p: Table, names: seq<string>): (b: Batch)
    ensures b.plugins == p - Elems(names)
    ensures b.calls == []
    ensures forall x :: x in b.failed ==> x in names
    decreases |names|
  {
    if names == [] then Batch(p, [], [])
    else
      var init, last := names[..|names| - 1], names[|names| - 1];
      assert names == init + [last];
      assert Elems(names) == Elems(init) + {last};
      var prev := UnloadAsWrittenAll(p, init);
      if last !in prev.plugins then Batch(prev.plugins, prev.failed + [last], [])
      else Batch(prev.plugins - {last}, prev.failed, [])
  }

  /** As written, for distinct names, a name fails exactly when it was not
      loaded; a failing `close` never reaches the failure list. */
  lemma {:induction false} UnloadAsWrittenFailedExactly(p: Table, names: seq<string>)
    requires Distinct(names)
    ensures forall x :: x in UnloadAsWrittenAll(p, names).failed <==> x in names && x !in p
    decreases |names|
  {
    if names != [] {
      var init, last := names[..|names| - 1], names[|names| - 1];
      assert names == init + [last];
      assert Distinct(init);
      assert last !in init;
      UnloadAsWrittenFailedExactly(p, init);
    }
  }

  /** The unreachable teardown changes the outcome: a plugin whose `close`
      raises is removed silently as written, and reported as intended. */
  lemma UnloadAsWrittenSkipsTeardown(host: Host)
    ensures var inst := Instance(0, [], Some(CloseFn(1, true)));
            var rec := PluginRecord(Module("plugins.a.plugin", None), inst, [], []);
            var p := map["a" := rec];
            && UnloadAsWrittenAll(p, ["a"]).failed == []
            && UnloadAsWrittenAll(p, ["a"]).calls == []
            && UnloadAll(p, ["a"], host).failed == ["a"]
            && UnloadAll(p, ["a"], host).calls == [CloseCall("a", inst, NoArgs)]
            && UnloadAll(p, ["a"], host).plugins == UnloadAsWrittenAll(p, ["a"]).plugins == map[]
  {
    var inst := Instance(0, [], Some(CloseFn(1, true)));
    var rec := PluginRecord(Module("plugins.a.plugin", None), inst, [], []);
    var p := map["a" := rec];
    assert ["a"][..0] == [];
    assert p - {"a"} == map[];
  }

  // ------------------------------------------------------------------ load

  /** Where `load` resolves a name from: the stored module handle when the
      name is loaded (hot reload), the bare name otherwise. */
  function PluginTarget(p: Table, name: string): (t: Target)
    ensures t.ByHandle? <==> name in p
    ensures t.ByHandle? ==> t.mod == p[name].mod
    ensures t.ByName? ==> t.name == name
  {
    if name in p then ByHandle(p[name].mod) else ByName(name)
  }

  /** A fresh record: the module, the instance, and the two scans of the
      instance. */
  function NewRecord(m: Module, inst: Instance): (r: PluginRecord)
    ensures r.mod == m && r.instance == inst
    ensures forall x :: x in r.commands <==>
              x in inst.members && x.callable && x.markers * CommandMarkers != {}
    ensures forall x :: x in r.events <==>
              x in inst.members && x.callable && x.markers * EventMarkers != {}
  {
    PluginRecord(m, inst, Tagged(inst.members, CommandMarkers), Tagged(inst.members, EventMarkers))
  }

  /** Whether `load` gets past the import and the instantiation of a name. */
  predicate Loads(p: Table, name: string, env: Env, host: Host): (r: bool)
    ensures r <==>
              var imported := ImportModule(PluginTarget(p, name), PluginUnit, env);
              && imported.Imported?
              && imported.mod.setup.Some?
              && imported.mod.setup.value.params <= 1
              && !imported.mod.setup.value.raises
  {
    var imported := ImportModule(PluginTarget(p, name), PluginUnit, env);
    imported.Imported? && CreatePluginInstance(imported.mod, host).result.Ok?
  }

  /** One iteration of `load`'s loop: import (or reload), best-effort
      configuration, instantiate, scan, evict the previous record through
      `unload`, commit. An import or instantiation failure puts the name on
      the failure list and leaves the table as it was. */
  function LoadStep(p: Table, name: string, env: Env, host: Host): (s: Step)
    ensures s.failed <==> !Loads(p, name, env, host)
    ensures s.failed ==> s.plugins == p
    ensures !s.failed ==> s.plugins.Keys == p.Keys + {name}
    ensures !s.failed ==> forall x :: x in p && x != name ==> s.plugins[x] == p[x]
    ensures !s.failed ==> Scanned(s.plugins[name])
    ensures !s.failed ==>
              var m := ImportModule(PluginTarget(p, name), PluginUnit, env).mod;
              s.plugins[name] == NewRecord(m, m.setup.value.instance)
  {
    match ImportModule(PluginTarget(p, name), PluginUnit, env)
    case Raised(_) => Step(p, true, [])
    case Imported(m) =>
      var config := ResolveConfig(name, env);
      var built := CreatePluginInstance(m, host);
      match built.result
      case Err(_) => Step(p, true, CallsOf(built.call))
      case Ok(inst) =>
        var evicted := if name in p then UnloadAll(p, [name], host) else Batch(p, [], []);
        assert [name][..0] == [];
        Step(evicted.plugins[name := NewRecord(m, inst)], false, CallsOf(built.call) + evicted.calls)
  }

  /** `load(names)` after normalisation: the steps applied in list order. */
  function LoadAll(p: Table, names: seq<string>, env: Env, host: Host): (b: Batch)
    ensures forall x :: x in b.failed ==> x in names
    ensures forall x :: x in names ==> x in b.failed || x in b.plugins
    ensures forall x :: x !in names ==> (x in b.plugins <==> x in p)
    ensures forall x :: x !in names && x in p ==> b.plugins[x] == p[x]
    ensures p.Keys <= b.plugins.Keys
    decreases |names|
  {
    if names == [] then Batch(p, [], [])
    else
      var init, last := names[..|names| - 1], names[|names| - 1];
      assert names == init + [last];
      var prev := LoadAll(p, init, env, host);
      var s := LoadStep(prev.plugins, last, env, host);
      Batch(s.plugins, prev.failed + (if s.failed then [last] else []), prev.calls + s.calls)
  }

  /** Loading one more name is one more step. */
  lemma LoadAllSnoc(p: Table, names: seq<string>, i: nat, env: Env, host: Host)
    requires i < |names|
    ensures var prev := LoadAll(p, names[..i], env, host);
            var s := LoadStep(prev.plugins, names[i], env, host);
            LoadAll(p, names[..i + 1], env, host)
              == Batch(s.plugins, prev.failed + (if s.failed then [names[i]] else []), prev.calls + s.calls)
  {
    assert names[..i + 1][..i] == names[..i];
  }

  /** A batch of one name is that name's step. */
  lemma LoadAllSingle(p: Table, name: string, env: Env, host: Host)
    ensures var s := LoadStep(p, name, env, host);
            LoadAll(p, [name], env, host) == Batch(s.plugins, if s.failed then [name] else [], s.calls)
  {
    assert [name][..0] == [];
  }

  /** A name outside a batch is resolved and loaded afterwards exactly as it
      would have been before it. */
  lemma LoadAllKeepsUnlisted(p: Table, names: seq<string>, x: string, env: Env, host: Host)
    requires x !in names
    ensures PluginTarget(LoadAll(p, names, env, host).plugins, x) == PluginTarget(p, x)
    ensures Loads(LoadAll(p, names, env, host).plugins, x, env, host) == Loads(p, x, env, host)
  {
  }

  /** Loading keeps the failure list in input order. */
  lemma {:induction false} LoadFailedInOrder(p: Table, names: seq<string>, env: Env, host: Host)
    ensures SubseqOf(LoadAll(p, names, env, host).failed, names)
    decreases |names|
  {
    if names != [] {
      var init, last := names[..|names| - 1], names[|names| - 1];
      assert names == init + [last];
      var prev := LoadAll(p, init, env, host);
      var s := LoadStep(prev.plugins, last, env, host);
      LoadFailedInOrder(p, init, env, host);
      SubseqExtend(prev.failed, init, last, s.failed);
      if !s.failed {
        assert LoadAll(p, names, env, host).failed == prev.failed;
      }
    }
  }

  /** For a list without repetitions, a name is on the failure list exactly
      when its import or instantiation failed, and a failed name keeps
      whatever record it had before the call. */
  lemma {:induction false} LoadFailedExactly(p: Table, names: seq<string>, env: Env, host: Host)
    requires Distinct(names)
    ensures forall x :: x in LoadAll(p, names, env, host).failed <==> x in names && !Loads(p, x, env, host)
    ensures forall x :: x in LoadAll(p, names, env, host).failed ==>
              (x in LoadAll(p, names, env, host).plugins <==> x in p)
    ensures forall x :: x in LoadAll(p, names, env, host).failed && x in p ==>
              LoadAll(p, names, env, host).plugins[x] == p[x]
    decreases |names|
  {
    if names != [] {
      var init, last := names[..|names| - 1], names[|names| - 1];
      assert names == init + [last];
      assert Distinct(init);
      assert last !in init;
      LoadFailedExactly(p, init, env, host);
      LoadAllKeepsUnlisted(p, init, last, env, host);
    }
  }

  /** For a list without repetitions, every name that loads ends the batch
      registered with a fresh record: the module its import gave, the
      instance its `setup` returned, and that instance's two scans. */
  lemma {:induction false} LoadCommitsFreshRecords(p: Table, names: seq<string>, env: Env, host: Host)
    requires Distinct(names)
    ensures forall x :: x in names && Loads(p, x, env, host) ==>
              var m := ImportModule(PluginTarget(p, x), PluginUnit, env).mod;
              && x in LoadAll(p, names, env, host).plugins
              && LoadAll(p, names, env, host).plugins[x] == NewRecord(m, m.setup.value.instance)
    decreases |names|
  {
    if names != [] {
      var init, last := names[..|names| - 1], names[|names| - 1];
      assert names == init + [last];
      assert Distinct(init);
      assert last !in init;
      LoadCommitsFreshRecords(p, init, env, host);
      LoadAllKeepsUnlisted(p, init, last, env, host);
    }
  }

  /** Loading a list of distinct names into an empty registry registers
      exactly the names that did not fail. */
  lemma LoadFromEmpty(names: seq<string>, env: Env, host: Host)
    requires Distinct(names)
    ensures LoadAll(map[], names, env, host).plugins.Keys
         == Elems(names) - Elems(LoadAll(map[], names, env, host).failed)
  {
    LoadFailedExactly(map[], names, env, host);
  }

  /** Iterating after such a load visits exactly the loaded names, in sorted
      order, whatever the order of the input list. */
  lemma LoadThenIterate(names: seq<string>, env: Env, host: Host)
    requires Distinct(names)
    ensures var b := LoadAll(map[], names, env, host);
            && StrictlySorted(SortedKeys(b.plugins.Keys))
            && forall x :: x in SortedKeys(b.plugins.Keys) <==> x in names && x !in b.failed
  {
    LoadFromEmpty(names, env, host);
  }

  /** Loading leaves every record coherent with its instance. */
  lemma {:induction false} LoadPreservesCoherent(p: Table, names: seq<string>, env: Env, host: Host)
    requires Coherent(p)
    ensures Coherent(LoadAll(p, names, env, host).plugins)
    decreases |names|
  {
    if names != [] {
      var init, last := names[..|names| - 1], names[|names| - 1];
      assert names == init + [last];
      LoadPreservesCoherent(p, init, env, host);
      var prev := LoadAll(p, init, env, host);
      var s := LoadStep(prev.plugins, last, env, host);
      if !s.failed {
        forall x | x in s.plugins
          ensures Scanned(s.plugins[x])
        {
          if x != last {
            assert s.plugins[x] == prev.plugins[x];
          }
        }
      }
    }
  }

  /** A `setup` that declares more than one parameter makes the step fail,
      invokes nothing, and leaves the registry unchanged. */
  lemma SetupArityViolation(p: Table, name: string, env: Env, host: Host)
    requires ImportModule(PluginTarget(p, name), PluginUnit, env).Imported?
    requires var m := ImportModule(PluginTarget(p, name), PluginUnit, env).mod;
             m.setup.Some? && m.setup.value.params > 1
    ensures LoadStep(p, name, env, host) == Step(p, true, [])
  {
  }

  /** Reloading a loaded name resolves from its stored module handle: what a
      fresh import of any path would yield plays no part. */
  lemma ReloadIgnoresFreshImports(p: Table, name: string, env: Env, host: Host, imports: map<string, ImportOutcome>)
    requires name in p
    ensures LoadStep(p, name, env.(imports := imports), host).plugins == LoadStep(p, name, env, host).plugins
    ensures LoadStep(p, name, env.(imports := imports), host).failed == LoadStep(p, name, env, host).failed
    ensures LoadStep(p, name, env.(imports := imports), host).calls == LoadStep(p, name, env, host).calls
  {
  }

  /** A successful reload stores the re-executed module and its new
      instance. After the new `setup` ran and before the new record is
      committed, the old instance goes through `ClosePluginInstance`: its
      `close` is called once if it has one of arity 1 or 2, and nothing is
      called otherwise. */
  lemma ReloadReplacesOnce(p: Table, name: string, env: Env, host: Host)
    requires name in p && Loads(p, name, env, host)
    ensures var m := ImportModule(ByHandle(p[name].mod), PluginUnit, env).mod;
            var s := LoadStep(p, name, env, host);
            && s.plugins[name] == NewRecord(m, m.setup.value.instance)
            && s.calls == [SetupCall(m, SetupArgs(m.setup.value.params, host).value)]
                          + CallsOf(ClosePluginInstance(name, p[name], host).call)
  {
    assert [name][..0] == [];
    assert UnloadAll(p, [], host).calls == [];
    assert UnloadAll(p, [name], host).calls == UnloadStep(p, name, host).calls;
  }

  /** The plugin calls one load pass makes: none when the import fails;
      otherwise the `setup` call `CreatePluginInstance` makes (also when
      `setup` then raises), followed, for a loaded name whose pass succeeds,
      by whatever closing the old instance calls. */
  lemma LoadStepCalls(p: Table, name: string, env: Env, host: Host)
    ensures ImportModule(PluginTarget(p, name), PluginUnit, env).Raised? ==>
              LoadStep(p, name, env, host).calls == []
    ensures ImportModule(PluginTarget(p, name), PluginUnit, env).Imported? ==>
              var m := ImportModule(PluginTarget(p, name), PluginUnit, env).mod;
              var s := LoadStep(p, name, env, host);
              s.calls == CallsOf(CreatePluginInstance(m, host).call)
                         + (if !s.failed && name in p then CallsOf(ClosePluginInstance(name, p[name], host).call) else [])
  {
    assert [name][..0] == [];
    assert UnloadAll(p, [], host).calls == [];
    if name in p {
      assert UnloadAll(p, [name], host).calls == UnloadStep(p, name, host).calls;
    }
  }

  /** Changing what the `plugins.<n>.config` unit does — found, missing, or
      broken — changes nothing about a load. */
  lemma {:induction false} ConfigNeverMatters(p: Table, names: seq<string>, env: Env, host: Host, n: string, o: ImportOutcome)
    ensures LoadAll(p, names, env.(imports := env.imports[UnitPath(n, ConfigUnit) := o]), host)
         == LoadAll(p, names, env, host)
    decreases |names|
  {
    if names != [] {
      var env' := env.(imports := env.imports[UnitPath(n, ConfigUnit) := o]);
      var init, last := names[..|names| - 1], names[|names| - 1];
      ConfigNeverMatters(p, init, env, host, n, o);
      var prev := LoadAll(p, init, env, host);
      if UnitPath(last, PluginUnit) == UnitPath(n, ConfigUnit) {
        UnitPathInjective(last, PluginUnit, n, ConfigUnit);
      }
      assert ImportModule(PluginTarget(prev.plugins, last), PluginUnit, env')
          == ImportModule(PluginTarget(prev.plugins, last), PluginUnit, env);
      assert LoadStep(prev.plugins, last, env', host) == LoadStep(prev.plugins, last, env, host);
    }
  }
}
