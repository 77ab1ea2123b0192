/** The values the plugin registry stores and the data that stands in for
    Python reflection: what importing a unit yields, what a plugin's `setup`
    and `close` look like, and which members an instance has. */
module Plugins {

  datatype Option<T> = None | Some(value: T)

  /** The bot object handed to the registry at construction (`self.cardinal`).
      The registry passes it to plugins verbatim and never looks inside it. */
  datatype Host = Host(id: nat)

  /** One attribute of an instance as `dir()` lists it: its name, whether it is
      callable, and the names of the marker attributes set on it (`commands`,
      `regex`, `help`, `on_join`, ...). */
  datatype Member = Member(name: string, callable: bool, markers: set<string>)

  /** A bound `close` method: its positional parameter count as
      `inspect.getargspec` reports it (`self` included) and whether calling it
      raises. */
  datatype CloseFn = CloseFn(params: nat, raises: bool)

  /** A live plugin object. `close` is `None` when the instance has no `close`
      attribute or it is not a bound method. */
  datatype Instance = Instance(id: nat, members: seq<Member>, close: Option<CloseFn>)

  /** The module-level `setup` function: its parameter count, whether calling
      it raises, and the instance it returns otherwise. */
  datatype SetupFn = SetupFn(params: nat, raises: bool, instance: Instance)

  /** A plugin code unit. `setup` is `None` when the module has no `setup`
      attribute or it cannot be introspected. */
  datatype Module = Module(path: string, setup: Option<SetupFn>)

  /** The exception an import raises: `ImportError` when the unit is not found,
      anything else (a syntax error, an error in its top-level code) otherwise. */
  datatype Exc = ImportError | OtherError

  datatype ImportOutcome = Imported(mod: Module) | Raised(exc: Exc)

  /** The import machinery, as data: what a fresh `importlib.import_module` of
      a dotted path yields, and what `reload` of an already imported module
      yields. A path or module missing from the maps raises `ImportError`. */
  datatype Env = Env(imports: map<string, ImportOutcome>, reloads: map<Module, ImportOutcome>)

  /** One entry of the registry: `{module, instance, commands, events}`. */
  datatype PluginRecord = PluginRecord(mod: Module, instance: Instance, commands: seq<Member>, events: seq<Member>)

  /** What a plugin callback is invoked with: nothing, or the bot. */
  datatype Args = NoArgs | WithHost(host: Host)

  /** A call the registry makes into plugin code. */
  datatype Callback =
    | SetupCall(mod: Module, args: Args)
    | CloseCall(name: string, instance: Instance, args: Args)

  /** Why a step failed. Only the failure lists reach the caller; the reason
      is what the source logs. */
  datatype PluginError =
    | InvalidArgument      // `ValueError`: the argument is neither a string nor a list
    | ResolutionFailed(exc: Exc)
    | SetupMissing         // no introspectable `setup` on the module
    | ContractError        // `ValueError`: a `setup` or `close` with too many parameters
    | SetupRaised
    | CloseRaised

  datatype Result<T> = Ok(value: T) | Err(error: PluginError)

  /** The outcome of invoking a plugin callback: the call made, if one was
      made, and what came of it. */
  datatype Invoked<T> = Invoked(call: Option<Callback>, result: Result<T>)

  /** The argument of `load` and `unload` as Python sees it: a string, a list
      (of names), or a value of any other type. */
  datatype PluginsArg = NameArg(name: string) | ListArg(names: seq<string>) | OtherArg
}
