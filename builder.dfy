/** `PluginManager._create_plugin_instance` and `_close_plugin_instance`:
    invoking a plugin's `setup` and `close` with or without the bot,
    depending on how many parameters they declare. */
module Builder {
  import opened Plugins

  /** How `setup` is called, given its parameter count: with nothing, with
      the bot, or not at all (`ValueError`). */
  function SetupArgs(params: nat, host: Host): (r: Result<Args>)
    ensures r == Ok(NoArgs) <==> params == 0
    ensures r == Ok(WithHost(host)) <==> params == 1
    ensures r == Err(ContractError) <==> params > 1
  {
    if params == 0 then Ok(NoArgs)
    else if params == 1 then Ok(WithHost(host))
    else Err(ContractError)
  }

  /** How a bound `close` is called: its count includes `self`, so one
      parameter means no argument, two mean the bot, anything else is a
      `ValueError`. */
  function CloseArgs(params: nat, host: Host): (r: Result<Args>)
    ensures r == Ok(NoArgs) <==> params == 1
    ensures r == Ok(WithHost(host)) <==> params == 2
    ensures r == Err(ContractError) <==> params == 0 || params > 2
  {
    if params == 1 then Ok(NoArgs)
    else if params == 2 then Ok(WithHost(host))
    else Err(ContractError)
  }

  /** Teardown mirrors construction: once `self` is discounted, `close`
      follows exactly the rule of `setup`. */
  lemma CloseMirrorsSetup(params: nat, host: Host)
    ensures CloseArgs(params + 1, host) == SetupArgs(params, host)
    ensures CloseArgs(0, host) == Err(ContractError)
  {
  }

  /** `_create_plugin_instance(module)`: call `module.setup` as its arity asks
      and return what it returns. A missing `setup`, a `setup` with more than
      one parameter and a `setup` that raises are all failures; only a
      well-formed `setup` is ever invoked. */
  function CreatePluginInstance(m: Module, host: Host): (r: Invoked<Instance>)
    ensures r.call.Some? <==> m.setup.Some? && m.setup.value.params <= 1
    ensures r.call.Some? ==>
              r.call.value == SetupCall(m, SetupArgs(m.setup.value.params, host).value)
    ensures r.result.Ok? <==> r.call.Some? && !m.setup.value.raises
    ensures r.result.Ok? ==> r.result.value == m.setup.value.instance
    ensures m.setup.None? ==> r.result == Err(SetupMissing)
    ensures m.setup.Some? && m.setup.value.params > 1 ==> r.result == Err(ContractError)
  {
    match m.setup
    case None => Invoked(None, Err(SetupMissing))
    case Some(s) =>
      match SetupArgs(s.params, host)
      case Err(e) => Invoked(None, Err(e))
      case Ok(args) =>
        Invoked(Some(SetupCall(m, args)), if s.raises then Err(SetupRaised) else Ok(s.instance))
  }

  /** `_close_plugin_instance(name)`: call the stored instance's `close`, if
      it has one, as its arity asks. No `close` is a clean no-op; a `close`
      with the wrong arity or one that raises is a failure. */
  function ClosePluginInstance(name: string, rec: PluginRecord, host: Host): (r: Invoked<()>)
    ensures rec.instance.close.None? ==> r == Invoked(None, Ok(()))
    ensures r.call.Some? <==> rec.instance.close.Some? && 1 <= rec.instance.close.value.params <= 2
    ensures r.call.Some? ==>
              r.call.value == CloseCall(name, rec.instance, CloseArgs(rec.instance.close.value.params, host).value)
    ensures r.result.Err? <==> rec.instance.close.Some? && (r.call.None? || rec.instance.close.value.raises)
  {
    match rec.instance.close
    case None => Invoked(None, Ok(()))
    case Some(c) =>
      match CloseArgs(c.params, host)
      case Err(e) => Invoked(None, Err(e))
      case Ok(args) =>
        Invoked(Some(CloseCall(name, rec.instance, args)), if c.raises then Err(CloseRaised) else Ok(()))
  }
}
