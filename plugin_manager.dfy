/** `cardinal/plugins.py`'s `PluginManager`: the registry object whose
    methods update its dictionary and its iteration cursor in place. */
module Manager {
  import opened Plugins
  import opened Resolver
  import opened Builder
  import opened Scanner
  import opened Registry
  import opened LexOrder
  import opened Sequences

  /** What `next()` produces: a record, or `StopIteration`. */
  datatype IterStep = Item(record: PluginRecord) | StopIteration

  class PluginManager {
    /** `self.plugins`: name to `{module, instance, commands, events}`. */
    var plugins: Table
    /** `self.iteration_counter`: how many `next()` calls since `__iter__`. */
    var iterationCounter: nat
    /** `self.cardinal`, handed to plugins that ask for it. */
    const host: Host
    /** The calls made into plugin code (`setup`, `close`) so far, in order. */
    ghost var calls: seq<Callback>

    ghost predicate Valid()
      reads this
    {
      Coherent(plugins)
    }

    /** A manager with nothing loaded. Loading an initial list is a `Load`
        of that list. */
    constructor (host: Host)
      ensures Valid()
      ensures plugins == map[] && iterationCounter == 0 && this.host == host && calls == []
    {
      plugins := map[];
      iterationCounter := 0;
      this.host := host;
      calls := [];
    }

    /** `__iter__`: restart the pass over the registry. */
    method Iter()
      modifies this`iterationCounter
      ensures iterationCounter == 0
    {
      iterationCounter := 0;
    }

    /** `next`: advance the cursor, then return the record under the
        counter-th name of the current keys in sorted order, or stop once the
        counter has passed the number of keys. The counter advances on every
        call, so once a pass has stopped it keeps stopping. */
    method Next() returns (r: IterStep)
      modifies this`iterationCounter
      ensures iterationCounter == old(iterationCounter) + 1
      ensures r.Item? <==> iterationCounter <= |plugins.Keys|
      ensures r.Item? ==> r.record == plugins[SortedKeys(plugins.Keys)[iterationCounter - 1]]
    {
      var keys := SortedKeys(plugins.Keys);
      iterationCounter := iterationCounter + 1;
      if iterationCounter > |keys| {
        return StopIteration;
      }
      return Item(plugins[keys[iterationCounter - 1]]);
    }

    /** `unload(plugins)`: reject a malformed argument; otherwise, name by
        name, fail the names not loaded, close and remove the others, and
        return the failure list. */
    method Unload(arg: PluginsArg) returns (r: Result<seq<string>>)
      requires Valid()
      modifies this`plugins, this`calls
      ensures Valid()
      ensures NormaliseArg(arg).Err? ==>
                r == Err(InvalidArgument) && plugins == old(plugins) && calls == old(calls)
      ensures NormaliseArg(arg).Ok? ==>
                var b := UnloadAll(old(plugins), NormaliseArg(arg).value, host);
                r == Ok(b.failed) && plugins == b.plugins && calls == old(calls) + b.calls
    {
      var normalised := NormaliseArg(arg);
      if normalised.Err? {
        return Err(normalised.error);
      }
      var names := normalised.value;
      var failed: seq<string> := [];
      for i := 0 to |names|
        invariant var b := UnloadAll(old(plugins), names[..i], host);
                  plugins == b.plugins && failed == b.failed && calls == old(calls) + b.calls
        invariant Valid()
      {
        UnloadAllSnoc(old(plugins), names, i, host);
        ghost var prev := UnloadAll(old(plugins), names[..i], host);
        var stepFailed := UnloadOne(names[i]);
        AppendAssoc(old(calls), prev.calls, UnloadStep(prev.plugins, names[i], host).calls);
        if stepFailed {
          failed := failed + [names[i]];
        }
      }
      assert names[..|names|] == names;
      return Ok(failed);
    }

    /** One pass of `unload`'s loop, for one name; true when the name goes
        on the failure list. */
    method UnloadOne(name: string) returns (stepFailed: bool)
      requires Valid()
      modifies this`plugins, this`calls
      ensures Valid()
      ensures var s := UnloadStep(old(plugins), name, host);
              plugins == s.plugins && stepFailed == s.failed && calls == old(calls) + s.calls
    {
      if name !in plugins {
        return true;
      }
      var closed := ClosePluginInstance(name, plugins[name], host);
      calls := calls + CallsOf(closed.call);
      plugins := plugins - {name};
      return closed.result.Err?;
    }

    /** One pass of `load`'s loop, for one name; true when the name goes on
        the failure list. */
    method LoadOne(name: string, env: Env) returns (stepFailed: bool)
      requires Valid()
      modifies this`plugins, this`calls
      ensures Valid()
      ensures var s := LoadStep(old(plugins), name, env, host);
              plugins == s.plugins && stepFailed == s.failed && calls == old(calls) + s.calls
    {
      var target := PluginTarget(plugins, name);
      var imported := ImportModule(target, PluginUnit, env);
      if imported.Raised? {
        return true;
      }
      var m := imported.mod;
      var config := ResolveConfig(name, env);
      var built := CreatePluginInstance(m, host);
      ghost var before := calls;
      calls := calls + CallsOf(built.call);
      if built.result.Err? {
        return true;
      }
      var instance := built.result.value;
      var commands := GetPluginCommands(instance);
      var events := GetPluginEvents(instance);
      if name in plugins {
        assert [name][..0] == [];
        var _ := Unload(NameArg(name));
        AppendAssoc(before, CallsOf(built.call), UnloadAll(old(plugins), [name], host).calls);
      }
      plugins := plugins[name := PluginRecord(m, instance, commands, events)];
      return false;
    }

    /** `load(plugins)`: reject a malformed argument; otherwise, name by
        name, import (or reload from the stored module), look up the
        configuration, instantiate, scan, evict the previous record through
        `unload`, and commit; return the names whose import or instantiation
        failed. */
    method Load(arg: PluginsArg, env: Env) returns (r: Result<seq<string>>)
      requires Valid()
      modifies this`plugins, this`calls
      ensures Valid()
      ensures NormaliseArg(arg).Err? ==>
                r == Err(InvalidArgument) && plugins == old(plugins) && calls == old(calls)
      ensures NormaliseArg(arg).Ok? ==>
                var b := LoadAll(old(plugins), NormaliseArg(arg).value, env, host);
                r == Ok(b.failed) && plugins == b.plugins && calls == old(calls) + b.calls
    {
      var normalised := NormaliseArg(arg);
      if normalised.Err? {
        return Err(normalised.error);
      }
      var names := normalised.value;
      var failed: seq<string> := [];
      for i := 0 to |names|
        invariant var b := LoadAll(old(plugins), names[..i], env, host);
                  plugins == b.plugins && failed == b.failed && calls == old(calls) + b.calls
        invariant Valid()
      {
        LoadAllSnoc(old(plugins), names, i, env, host);
        ghost var prev := LoadAll(old(plugins), names[..i], env, host);
        var stepFailed := LoadOne(names[i], env);
        AppendAssoc(old(calls), prev.calls, LoadStep(prev.plugins, names[i], env, host).calls);
        if stepFailed {
          failed := failed + [names[i]];
        }
      }
      assert names[..|names|] == names;
      return Ok(failed);
    }
  }
}
