# Cardinal's plugin registry, in Dafny

Cardinal is an IRC bot. Its `PluginManager` (`cardinal/plugins.py`) keeps a
dictionary from plugin name to a record of the plugin's module, its instance,
and the instance's commands and event handlers, plus a cursor for iterating
over that dictionary. It loads and unloads whole batches of plugins by name:

- A name is imported fresh, or re-executed from the stored module when it is
  already loaded.
- Its configuration unit is looked up, best effort.
- Its `setup` is called with or without the bot, depending on how many
  parameters `setup` declares, and the resulting instance is scanned for
  tagged methods.
- Any previous record is evicted through `unload`, which calls the old
  instance's `close`, and the new record is committed.
- Failures are collected per name and never abort the batch.

The model has these parts:

- `Plugins` (`plugin_types.dfy`): the records and the plugin-side data.
  Python reflection becomes plain data: a module has an optional `setup` with
  a parameter count and a "raises" flag, and an instance has its members in
  `dir()` order, each with a callable flag and the set of attribute names it
  carries, plus an optional `close`. Imports and reloads are an environment:
  a map from dotted path to import outcome and a map from module handle to
  reload outcome.
- `Resolver` (`resolver.dfy`): `_import_module`.
- `Builder` (`builder.dfy`): `_create_plugin_instance`, `_close_plugin_instance`
  and the arity rules they follow.
- `Scanner` (`scanner.dfy`): the two capability scans, as loops proved equal
  to an order-preserving filter.
- `LexOrder` (`lex_order.dfy`): lexicographic string order, and `SortedKeys`,
  the one strictly sorted listing of a key set. This is Python's `sorted` on
  the dictionary's keys.
- `Registry` (`registry.dfy`): what one pass of `load`'s or `unload`'s loop
  does to the dictionary (`LoadStep`, `UnloadStep`), and what a whole batch
  does (`LoadAll`, `UnloadAll`). Each carries the trace of plugin callbacks
  it makes, and the lemmas state what load and unload guarantee.
- `Manager` (`plugin_manager.dfy`): the class `PluginManager`. Its methods
  update the dictionary field and the cursor field in place, and are proved
  to follow the `Registry` functions. A ghost field records every
  `setup`/`close` call made, in order.
- `Scenarios` (`scenarios.dfy`): concrete plugins in the style of the
  repository's last.fm plugin, which use `.commands`/`.help` tagging and a
  one-parameter `close`, worked through a mixed batch, a hot reload and an
  unload.

`unload` is modelled as its comments describe it: a loaded name has its
instance closed, goes on the failure list if closing fails, and is removed
either way. As written, the teardown block sits after a `continue` and never
runs. That version is modelled too, and the difference is shown under
"## Findings".

## Model

| member | source | states |
|---|---|---|
| `LexOrder.Less` | cardinal/plugins.py:67 | Python's `<` on strings: only a non-empty string can be greater, and a proper prefix is smaller than the longer string |
| `LexOrder.LessIsFirstDifference` | cardinal/plugins.py:67 | `Less` is exactly "proper prefix, or smaller at the first position where the two differ" |
| `LexOrder.LessIrreflexive` | cardinal/plugins.py:67 | no key sorts before itself |
| `LexOrder.LessTransitive` | cardinal/plugins.py:67 | the order `sorted` uses is transitive |
| `LexOrder.LessTotal` | cardinal/plugins.py:67 | any two distinct keys are ordered one way or the other |
| `LexOrder.LessAsymmetric` | cardinal/plugins.py:67 | two keys are never each before the other |
| `LexOrder.LeastExists` | cardinal/plugins.py:67 | every non-empty key set has a least key |
| `LexOrder.LeastUnique` | cardinal/plugins.py:67 | that least key is unique |
| `LexOrder.Least` | cardinal/plugins.py:67 | returns the least key of a non-empty set |
| `LexOrder.SortedKeys` | cardinal/plugins.py:67 | `sorted(keys)` is strictly increasing, holds exactly the keys, and has one entry per key |
| `LexOrder.SortedUnique` | cardinal/plugins.py:67 | two strictly sorted listings of the same keys are equal, so `SortedKeys` is the only possible result of `sorted` |
| `Resolver.UnitPath` | cardinal/plugins.py:93 | the dotted path `plugins.<name>.<type>` has the name at a fixed position and a fixed length overhead |
| `Resolver.UnitPathInjective` | cardinal/plugins.py:93 | different names, or a plugin's code and config units, never share a path |
| `Resolver.ImportModule` | cardinal/plugins.py:90-93 | a module handle gives exactly its reload outcome and a name exactly the import outcome of its dotted path, when one exists; a missing unit is an `ImportError` |
| `Resolver.ReloadIgnoresPaths` | cardinal/plugins.py:90-91 | a reload does not depend on what any fresh import would give |
| `Resolver.ResolveConfig` | cardinal/plugins.py:283-298 | the config lookup finds a module exactly when `plugins.<name>.config` imports; `ImportError` and other exceptions both give none |
| `Builder.SetupArgs` | cardinal/plugins.py:115-123 | `setup` gets no argument iff it declares 0 parameters, the bot iff it declares 1, and a `ValueError` iff it declares more |
| `Builder.CloseArgs` | cardinal/plugins.py:147-164 | `close` gets no argument iff its arity is 1 (`self`), the bot iff 2, and a `ValueError` for any other arity |
| `Builder.CloseMirrorsSetup` | cardinal/plugins.py:147-164 | once `self` is discounted, `close` follows `setup`'s rule; arity 0 fails |
| `Builder.CreatePluginInstance` | cardinal/plugins.py:95-125 | `setup` is called iff it exists and declares at most one parameter, with the arguments its arity asks for; an instance comes back iff it was called and did not raise; a missing `setup` and an over-long parameter list are failures |
| `Builder.ClosePluginInstance` | cardinal/plugins.py:127-164 | no `close` is a clean no-op; `close` is called iff its arity is 1 or 2, on the stored instance, with the matching arguments; the result is a failure iff a `close` exists and either had a bad arity or raised |
| `Scanner.IsTagged` | cardinal/plugins.py:183-184 | a member is selected iff it is callable and carries at least one of the marker attributes: `regex`/`commands` for commands (lines 183-184), the eight `on_*` names for events (lines 216-219) |
| `Scanner.Tagged` | cardinal/plugins.py:176-190 | the selection holds exactly the callable members that carry one of the markers, and never more members than the input |
| `Scanner.TaggedInOrder` | cardinal/plugins.py:180-188 | the selection keeps `dir()` order |
| `Scanner.TaggedIsTheFilter` | cardinal/plugins.py:176-190 | for a member list without repeats, any order-preserving selection of exactly the tagged members is `Tagged` |
| `Scanner.ScanMembers` | cardinal/plugins.py:180-190 | the loop-and-append scan returns `Tagged` |
| `Scanner.GetPluginCommands` | cardinal/plugins.py:176-190 | returns, in member order, exactly the callable members carrying `regex` or `commands` |
| `Scanner.GetPluginEvents` | cardinal/plugins.py:212-222 | returns, in member order, exactly the callable members carrying one of the eight `on_*` attributes |
| `Scanner.BothScansIndependent` | cardinal/plugins.py:176-222 | a member with both kinds of marker is in both lists |
| `Registry.NormaliseArg` | cardinal/plugins.py:243-248 | a string becomes a one-element list, a list is kept, anything else is a `ValueError` (the same check as lines 344-347) |
| `Registry.UnloadStep` | cardinal/plugins.py:354-376 | one unload pass removes the name and nothing else; a name not loaded fails and calls nothing; a loaded name has its `close` called as `ClosePluginInstance` says, and fails iff closing fails |
| `Registry.UnloadAll` | cardinal/plugins.py:349-378 | a batch removes exactly the listed names; failures are listed names, and every name not loaded fails |
| `Registry.UnloadAllSnoc` | cardinal/plugins.py:354-376 | unloading one more name is one more pass |
| `Registry.UnloadFailedInOrder` | cardinal/plugins.py:352-378 | the failure list keeps input order |
| `Registry.UnloadFailedExactly` | cardinal/plugins.py:352-378 | for distinct names, a name fails iff it was not loaded or its `close` failed |
| `Registry.UnloadPreservesCoherent` | cardinal/plugins.py:354-376 | every remaining record is still the scan of its own instance |
| `Registry.UnloadAsWrittenAll` | cardinal/plugins.py:354-378 | as written: the listed names are removed, no `close` is ever called, and only listed names fail |
| `Registry.UnloadAsWrittenFailedExactly` | cardinal/plugins.py:354-376 | as written, for distinct names, a name fails iff it was not loaded |
| `Registry.UnloadAsWrittenSkipsTeardown` | cardinal/plugins.py:357-371 | a plugin whose `close` raises is removed silently as written, but is closed and reported as failed as intended |
| `Registry.PluginTarget` | cardinal/plugins.py:265-269 | a loaded name is resolved from its stored module handle, any other name from the name itself |
| `Registry.NewRecord` | cardinal/plugins.py:315-320 | the committed record holds the module and the instance, and its command and event lists hold exactly the instance's callable members tagged as such |
| `Registry.Loads` | cardinal/plugins.py:264-307 | a name gets past import and instantiation iff its unit imports (or reloads) and has a `setup` that declares at most one parameter and does not raise |
| `Registry.LoadStep` | cardinal/plugins.py:259-322 | one load pass fails iff the import or the instantiation fails, and then leaves the dictionary as it was; otherwise the name is added, every other record is unchanged, and the new record holds the imported module, the instance `setup` returned, and that instance's two scans; the calls it makes are stated by `LoadStepCalls` |
| `Registry.LoadStepCalls` | cardinal/plugins.py:264-313 | a pass whose import fails calls nothing; otherwise it makes exactly the `setup` call `CreatePluginInstance` makes (once, also when `setup` then raises), followed, only when a loaded name's pass succeeds, by what closing the old instance calls |
| `Registry.LoadAll` | cardinal/plugins.py:250-324 | failures are listed names; each listed name fails or is registered; unlisted names keep their records; no name is lost (the record each loaded name ends with is stated by `LoadCommitsFreshRecords`) |
| `Registry.LoadCommitsFreshRecords` | cardinal/plugins.py:259-320 | for distinct names, every name that loads ends the batch registered with the module its import gave, the instance its `setup` returned, and that instance's scans |
| `Registry.LoadAllKeepsUnlisted` | cardinal/plugins.py:259-324 | a name outside a batch is resolved and loads afterwards exactly as before |
| `Registry.LoadAllSnoc` | cardinal/plugins.py:259-324 | loading one more name is one more pass |
| `Registry.LoadAllSingle` | cardinal/plugins.py:259-324 | a batch of one name is that name's pass |
| `Registry.LoadFailedInOrder` | cardinal/plugins.py:250-324 | the failure list keeps input order |
| `Registry.LoadFailedExactly` | cardinal/plugins.py:273-307 | for distinct names, a name fails iff its import or instantiation fails, and a failed name keeps whatever record it had |
| `Registry.LoadFromEmpty` | cardinal/plugins.py:259-324 | loading distinct names into an empty registry registers exactly the names that did not fail |
| `Registry.LoadThenIterate` | cardinal/plugins.py:67 | after such a load the iteration order is strictly sorted and covers exactly the names that did not fail |
| `Registry.LoadPreservesCoherent` | cardinal/plugins.py:309-320 | after a load every record's command and event lists are its own instance's scans |
| `Registry.SetupArityViolation` | cardinal/plugins.py:301-307 | a `setup` with more than one parameter fails the name, calls nothing and leaves the dictionary unchanged |
| `Registry.ReloadIgnoresFreshImports` | cardinal/plugins.py:265-271 | reloading a loaded name resolves from the stored handle; fresh imports play no part |
| `Registry.ReloadReplacesOnce` | cardinal/plugins.py:265-320 | a successful reload stores the re-executed module and its new instance; the only calls are the new `setup`, once, followed by whatever `ClosePluginInstance` calls on the old instance: its `close` once when it has one of arity 1 or 2, nothing otherwise |
| `Registry.ConfigNeverMatters` | cardinal/plugins.py:280-298 | whether a config unit is found, missing or broken changes nothing about a batch load |
| `Manager.PluginManager.constructor` | cardinal/plugins.py:17-37 | a new manager has an empty dictionary, a zero cursor, the given bot, and has called nothing |
| `Manager.PluginManager.Iter` | cardinal/plugins.py:50-53 | `__iter__` resets the cursor to 0 |
| `Manager.PluginManager.Next` | cardinal/plugins.py:55-76 | `next` always advances the cursor; it yields a record iff the cursor is within the current key count, namely the record under the cursor-th key in sorted order; after that it keeps stopping |
| `Manager.PluginManager.UnloadOne` | cardinal/plugins.py:354-376 | one pass of `unload`'s loop changes the dictionary and the call trace as `UnloadStep` says |
| `Manager.PluginManager.Unload` | cardinal/plugins.py:326-378 | a malformed argument is rejected with nothing changed; otherwise the dictionary, the failure list and the calls are those of `UnloadAll`, and records stay coherent |
| `Manager.PluginManager.LoadOne` | cardinal/plugins.py:259-322 | one pass of `load`'s loop, evicting through `Unload`, changes state as `LoadStep` says |
| `Manager.PluginManager.Load` | cardinal/plugins.py:224-324 | a malformed argument is rejected with nothing changed; otherwise the dictionary, the failure list and the calls are those of `LoadAll`, and records stay coherent |
| `Scenarios.ScansOfA` | plugins/lastfm/plugin.py:67-69 | two methods tagged with `.commands` and `.help` are both commands and neither is an event handler; the untagged `close` is neither |
| `Scenarios.LoadA` | cardinal/plugins.py:259-322 | loading a one-parameter `setup` calls it with the bot and stores its record |
| `Scenarios.LoadBFails` | cardinal/plugins.py:264-278 | a name with no code unit fails and calls nothing |
| `Scenarios.LoadJustA` | cardinal/plugins.py:259-324 | the one-name batch of that plugin |
| `Scenarios.LoadAB` | cardinal/plugins.py:259-324 | a batch with one good and one missing name fails only the missing one |
| `Scenarios.SortedKeysOfA` | cardinal/plugins.py:67 | a one-plugin registry iterates as that one name |
| `Scenarios.MixedBatch` | cardinal/plugins.py:259-324 | after the mixed batch only the missing name failed, iteration yields the one good record with both its commands, and `setup` ran once |
| `Scenarios.ScansOfX2` | cardinal/plugins.py:212-222 | an `on_join` method is an event handler and not a command |
| `Scenarios.ReloadX` | cardinal/plugins.py:265-320 | reloading a changed plugin calls its new zero-parameter `setup`, then the old `close(self, cardinal)` with the bot, then commits the new record |
| `Scenarios.HotReload` | cardinal/plugins.py:265-320 | hot reload as a batch: no failure, one record with the new scans, the two calls in that order |
| `Scenarios.UnloadMissingName` | cardinal/plugins.py:354-376 | unloading a loaded and a missing name closes the loaded one with no argument, removes it, and fails only the missing one |

## Left out

- Logging: the `logging` calls have no effect on the registry.
- The UTF-8 encoding of a string argument (lines 244 and 345) is taken as the identity.
- `linecache.clearcache()` (line 257) is a debugging aid with no effect on the registry.
- Python reflection and import (`inspect.getargspec`, `inspect.ismethod`, `dir`, `getattr`, `hasattr`, `importlib.import_module`, `reload`) are given as data. The member order of `dir()`, and what an import or a reload yields, are inputs.
- A `getattr` that raises during a scan (lines 181 and 215) is not modelled. The scans at lines 309-310 sit outside any `try`, so in Python such a member would end the whole `load` call, failure list included, unlike every other per-name failure. Here every member can be read.
- The elements of a list argument are taken to be strings. The source does not check them.
- What a `setup` or `close` call does inside the plugin is not modelled, beyond returning, raising, and being recorded in the call trace.
- `Manager.PluginManager.constructor`: `__init__` as written iterates `None` when no list is given, and calls a `load_plugin` method that does not exist. The constructor builds an empty manager; loading an initial list is a `Load` call on it.
- The class-level `plugins = {}` (line 14) is shared by all instances in Python. Here it is a per-object field.
- The bot instance is an opaque value, `Host`.
- The text has a missing parenthesis (line 184) and an `else:` with no indented body (lines 162-164), so the file does not parse as written. It also misspells `instance` as `sinstance` (line 154), which would raise `NameError` when that line runs. The model follows the evident intent of each.
- `Resolver.ImportModule` imports a name from `plugins.<name>.<type>`. As written, `importlib` is never imported (lines 1-3 import only `logging`, `inspect` and `linecache`), so line 93 raises `NameError`. Line 273 would then fail every fresh plugin import and line 296 every config lookup. The model follows the evident intent, a working import.
- `Registry.LoadStep`: `reload` (line 91) re-executes the stored module object in place. So in Python, a reload that succeeds followed by a failing `setup` leaves the old record pointing at the already re-executed module. The model treats a reload as returning a new `Module` value, and a failed step leaves the old record exactly as it was.
- `Builder.ClosePluginInstance` calls `close` on the stored instance. Lines 158-160 call `module.close`, but the docstring's first line (128) and the checks at lines 147 and 154 are about the instance's `close` method.
- The stored record never holds a `config` entry, so the test at line 285 is always false and configuration is always resolved by name. `ResolveConfig`'s result is computed and discarded, as in the source.
- Concurrency: the source is single-threaded and so is the model.
- `plugins/lastfm/plugin.py` (SQLite, HTTP, JSON, messaging) and `plugins/subwatch/` (a polling thread, network access, environment credentials, a mock-based test) are plugins, not the registry. They are not part of this model.

## Findings

| source | as written | input that shows it | evidently intended | confidence | as-written member | corrected member |
|---|---|---|---|---|---|---|
| cardinal/plugins.py:357-371 | the `try: self._close_plugin_instance(plugin)` block is indented under `if plugin not in self.plugins:` after `continue`, so it never runs: a loaded plugin is deleted without `close`, and a failing `close` never reaches the failure list; since `load` evicts through `self.unload(plugin)` (line 313), a reload never closes the old instance either | dictionary `{"a": rec}` whose instance has `close(self)` that raises; `unload(["a"])` | close the instance, put the name on the failure list if closing raised, delete the record either way (the comment at lines 365-367) | not executed | `Registry.UnloadAsWrittenAll`, `Registry.UnloadAsWrittenSkipsTeardown` | `Registry.UnloadAll` |
