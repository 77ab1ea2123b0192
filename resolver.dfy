/** `PluginManager._import_module`: fresh import of a plugin's unit by name,
    or re-execution of a module that is already loaded. */
module Resolver {
  import opened Plugins

  /** The `type` argument: the plugin's code unit or its configuration unit. */
  datatype UnitKind = PluginUnit | ConfigUnit

  function KindName(kind: UnitKind): string
  {
    match kind
    case PluginUnit => "plugin"
    case ConfigUnit => "config"
  }

  /** The dotted path `plugins.<name>.<type>` a fresh import looks up. */
  function UnitPath(name: string, kind: UnitKind): (path: string)
    ensures |path| == |name| + 15
    ensures path[8..8 + |name|] == name
  {
    "plugins." + name + "." + KindName(kind)
  }

  /** Distinct names, and a plugin's code and configuration units, never share
      a dotted path. */
  lemma UnitPathInjective(a: string, k1: UnitKind, b: string, k2: UnitKind)
    requires UnitPath(a, k1) == UnitPath(b, k2)
    ensures a == b && k1 == k2
  {
    var p := UnitPath(a, k1);
    assert |a| == |b|;
    assert p[|p| - 6..] == KindName(k1) && p[|p| - 6..] == KindName(k2);
  }

  /** What `_import_module` is given: a name never loaded, or the module
      handle stored for a loaded name. */
  datatype Target = ByName(name: string) | ByHandle(mod: Module)

  /** `_import_module(target, type)`: `reload` of a module handle (the unit
      kind plays no part then), `importlib.import_module('plugins.<name>.<type>')`
      of a name. */
  function ImportModule(target: Target, kind: UnitKind, env: Env): (r: ImportOutcome)
    ensures target.ByName? && r.Imported? ==>
              UnitPath(target.name, kind) in env.imports && env.imports[UnitPath(target.name, kind)] == r
    ensures target.ByHandle? && r.Imported? ==>
              target.mod in env.reloads && env.reloads[target.mod] == r
    ensures target.ByName? && UnitPath(target.name, kind) !in env.imports ==> r == Raised(ImportError)
    ensures target.ByHandle? && target.mod !in env.reloads ==> r == Raised(ImportError)
    ensures target.ByName? && UnitPath(target.name, kind) in env.imports ==>
              r == env.imports[UnitPath(target.name, kind)]
    ensures target.ByHandle? && target.mod in env.reloads ==> r == env.reloads[target.mod]
  {
    match target
    case ByHandle(m) =>
      if m in env.reloads then env.reloads[m] else Raised(ImportError)
    case ByName(name) =>
      var path := UnitPath(name, kind);
      if path in env.imports then env.imports[path] else Raised(ImportError)
  }

  /** A reload depends on the stored handle only: whatever a fresh import of
      any path would yield plays no part in it. */
  lemma ReloadIgnoresPaths(m: Module, kind: UnitKind, env: Env, path: string, o: ImportOutcome)
    ensures ImportModule(ByHandle(m), kind, env)
         == ImportModule(ByHandle(m), kind, env.(imports := env.imports[path := o]))
  {
  }

  /** The best-effort configuration lookup of `load`. The stored record never
      holds a `config` entry, so the lookup is always a fresh import by name;
      `ImportError` and every other exception alike give "no configuration". */
  function ResolveConfig(name: string, env: Env): (config: Option<Module>)
    ensures config.Some? <==> ImportModule(ByName(name), ConfigUnit, env).Imported?
    ensures config.Some? ==> env.imports[UnitPath(name, ConfigUnit)] == Imported(config.value)
  {
    match ImportModule(ByName(name), ConfigUnit, env)
    case Imported(m) => Some(m)
    case Raised(_) => None
  }
}
