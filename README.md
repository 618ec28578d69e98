# Flow-engine nodes, modelled in Dafny

This project models the two node types of the alchemy-scenario flow engine.

- **Scenario block** (`lib/scenario_block.js`) is a node of a flow graph. Its exits are two lists of block ids: `out_on_true` and `out_on_false`. The model covers:
  - the filtered exit-id lists and the memoized reverse-edge index (`entrance_block_ids`, `getEntranceBlocks`);
  - successor resolution (`getNextBlocks`), which drops dangling ids;
  - the boot-once / evaluate-per-trigger lifecycle, with callbacks that fire at most once;
  - result storage and the previous-run fallback;
  - the scenario's variable table;
  - the three-way choice of a block's description.
- **Component** (`lib/component/00_component.js`) is a node with named anchors. The model covers:
  - the class-level anchor registry (`setInput`, `setOutput`), its categories and description;
  - the descriptors given to the editor (`getClientConfig`, `getAll`);
  - signal routing: `outputSignal` clones the signal once per matching outgoing connection, and `inputSignal` calls the registered handler or drops the signal.

Modules, one per concern:

| file | module | contents |
|---|---|---|
| js.dfy | `Js` | JavaScript values, truthiness, `String(x)`, `Option`/`Result` |
| lists.dfy | `Lists` | append-unless-present lists (`indexOf`/`includes` then `push`) and `Dedup` |
| decks.dfy | `Decks` | the insertion-ordered `Deck` map the registry uses |
| block_ids.dfy | `BlockIds` | exit-id filtering and id-to-block resolution as sequence functions |
| scenario_block.dfy | `ScenarioBlock` | the `Scenario` run-context and the `Block` class |
| component_registry.dfy | `ComponentRegistry` | the `ComponentClass` static state and its projections |
| component_signal.dfy | `ComponentSignal` | `Component` instances, `Signal`, `Session`, routing |

Asynchrony is cooperative and single-threaded, so each asynchronous step is a sequential state transition. `startBoot` becomes `StartBoot`, then `AfterBooting(err)` (the `booting` listeners have answered), then `Booted(err)` (the `boot` hook has answered). Each callback the `evaluate` hook receives is a method on the block, and each one takes the number of the evaluation it belongs to:
- `Evaluated` is the `evaluated` callback;
- `Specialised` is the `specialised` callback;
- `Threw` is the `catch` branch.

The `after('booted', …)` queue is the `pending` field. The once-only wrappers are a pair of flags per evaluation (`guards`). The callbacks fired are logged in `trace`.

Assumptions the source leaves implicit:
- `Deck` is an insertion-ordered map. Setting an existing name again replaces its entry and keeps its position.
- `signal.clone()` gives a fresh object with the same type and value.
- `getInput(name)` looks `name` up in the class's `inputs` deck.
- `scenario.getSortedBlocks().all` is the scenario's block map, enumerated in `Scenario.order`.
- `persistBlockValue` and `touchPersistedBlockValue` store to, and read from, a map from scope to block id to record. A missing record reads as `{}`.
- The TypeError messages (`UndefinedOutputError`, `MissingConnectionsError`) use recent V8 wording (Node.js 16.9 and later). Other engines word them differently.
- `this.config = this.data` in the component constructor is not modelled: `config` is only an alias of `data`.
- Key enumeration order is an abstraction. JavaScript's `for (id in …)` and `for (key in group)` list integer-like keys first, in ascending order, and then the other keys in insertion order. `Scenario.order` (filled by `AddBlock`) and `GetAll`'s `group` are given in insertion order.
- Block ids are strings or absent. An absent id is looked up under `"undefined"`, which is what `String(undefined)` gives. Exit-list entries may be any primitive value and go through truthiness and `String()`.

## Model

| member | source | states |
|---|---|---|
| BlockIds.TruthyOnly | lib/scenario_block.js:126-134 | every kept entry is truthy, and the result is never longer than the input |
| BlockIds.TruthyOnlyMembers | lib/scenario_block.js:130-132 | a value is kept iff it is in the list and truthy |
| BlockIds.TruthyOnlyAppend | lib/scenario_block.js:127-133 | filtering commutes with concatenation, so kept ids stay in list order |
| BlockIds.TruthyOnlyOfTruthy | lib/scenario_block.js:130-132 | a list with no falsy entries passes unchanged (filtering is idempotent) |
| BlockIds.CollectTruthy | lib/scenario_block.js:120-137 | the loop returns `[]` for a missing list and otherwise the truthy entries in order |
| BlockIds.Resolve | lib/scenario_block.js:570-578 | resolving ids to blocks never yields more blocks than ids |
| BlockIds.ResolveAppend | lib/scenario_block.js:570-578 | resolution distributes over concatenation, so blocks come out in id order |
| BlockIds.ResolveMembers | lib/scenario_block.js:573-577 | a block is in the result iff some listed id names it in the scenario map |
| BlockIds.ResolveDangling | lib/scenario_block.js:575-577 | ids that name no live block resolve to `[]`, not an error |
| BlockIds.ResolveAllLive | lib/scenario_block.js:570-578 | when every id is live, the i-th block is the block of the i-th id |
| BlockIds.ResolveKeys | lib/scenario_block.js:531-538 | the lookup loop computes `Resolve` of the ids over the block map |
| Lists.AddOnce | lib/scenario_block.js:220-222 | the element is present afterwards, membership grows by it alone, the prefix is kept, duplicates are never introduced |
| Lists.AddOnceIdempotent | lib/component/00_component.js:165-167 | adding the same element twice equals adding it once |
| Lists.Dedup | lib/scenario_block.js:219-222 | the result has no duplicates and has the same members as the input |
| Lists.DedupSnoc | lib/scenario_block.js:219-222 | deduplicating an extended list is add-once onto the deduplicated prefix |
| Lists.FirstIndex | lib/scenario_block.js:220 | the first position of an element, with no earlier occurrence |
| Lists.FirstIndexOfPrefix | lib/scenario_block.js:220 | appending does not move the first occurrence of an element already present |
| Lists.DedupFirstOccurrenceOrder | lib/scenario_block.js:219-222 | dedup lists elements in the order of their first occurrence |
| Lists.DedupOfDistinct | lib/scenario_block.js:219-222 | a duplicate-free list is its own dedup |
| Decks.Empty | lib/component/00_component.js:141-142 | a new deck is valid and empty |
| Decks.Set | lib/component/00_component.js:207 | the name maps to the new entry, other names are unchanged, a new name is appended to the order, and an existing name keeps its place |
| Decks.Position | lib/component/00_component.js:230 | a registered name sits at exactly one position of the iteration order |
| Decks.ValuesAfterSet | lib/component/00_component.js:230 | last write wins: re-setting replaces in place, and a new name is iterated last |
| Decks.SetIdempotent | lib/component/00_component.js:207 | setting the same entry twice equals setting it once |
| ScenarioBlock.ExitIds | lib/scenario_block.js:168-170 | every exit id is truthy (true exits then false exits) |
| ScenarioBlock.HitsInMeans | lib/scenario_block.js:204-215 | the scan over a block's exits finds the target iff some truthy exit stringifies to this block's id |
| ScenarioBlock.HitsInStep | lib/scenario_block.js:204-224 | scanning one more exit adds exactly that exit's match |
| ScenarioBlock.ReferrersStep | lib/scenario_block.js:198-225 | scanning one more block adds that block's id once, when it points here |
| ScenarioBlock.ReferrersSnoc | lib/scenario_block.js:198-224 | scanning one more key appends that block's contribution: its id iff one of its exits leads here, else nothing |
| ScenarioBlock.ReferrersAppend | lib/scenario_block.js:198-225 | the scan is compositional, so referrers come out in key order |
| ScenarioBlock.ReferrersMembers | lib/scenario_block.js:198-223 | an id is a referrer iff some scanned block with that id has an exit leading here |
| ScenarioBlock.EntranceIdsMembers | lib/scenario_block.js:198-225 | entrance ids have no duplicates, and `String(b.id)` is listed iff block `b` has a truthy exit equal to this id |
| ScenarioBlock.EntranceIdsDiscoveryOrder | lib/scenario_block.js:219-222 | entrance ids appear in order of first discovery during the scan |
| ScenarioBlock.Stash | lib/scenario_block.js:506 | writes the record under scope and key and changes no other scope or key |
| ScenarioBlock.CountsAppend | lib/scenario_block.js:380-381 | one more event adds to the callback count of its own evaluation only |
| ScenarioBlock.CountsOfUnmentioned | lib/scenario_block.js:380-381 | an evaluation no event names has had no callback |
| ScenarioBlock.TallyCalledBack | lib/scenario_block.js:380-381 | firing the unspent callback of evaluation `t` spends its guard and keeps every count equal to what the guards say |
| ScenarioBlock.TallyCommanded | lib/scenario_block.js:380-381 | firing the unspent special callback of evaluation `t` spends its guard and keeps every count equal to what the guards say |
| ScenarioBlock.TallyArmed | lib/scenario_block.js:371-381 | a newly armed evaluation has unspent guards and no callbacks yet |
| ScenarioBlock.CallbacksFireAtMostOnce | lib/scenario_block.js:380-381 | each evaluation's callback and special callback fire at most once, and not at all for an evaluation that was never started |
| ScenarioBlock.ResultRoundTrip | lib/scenario_block.js:433-438 | after `setResultValue`, the current result is the stored value, and the previous result without a snapshot is the same record |
| ScenarioBlock.Scenario.constructor | lib/scenario_block.js:196 | an empty, valid block map with the given variables, scope and snapshot |
| ScenarioBlock.Scenario.AddBlock | lib/scenario_block.js:196 | the block map gains the key, keeping the key order valid |
| ScenarioBlock.Scenario.PersistBlockValue | lib/scenario_block.js:506 | stores the block's value and error under its id in the active scope |
| ScenarioBlock.Scenario.TouchPersistedBlockValue | lib/scenario_block.js:435 | returns the block's record in the given or active scope, creating an empty one when missing |
| ScenarioBlock.Block.constructor | lib/scenario_block.js:19-32 | stores scenario, data, settings (default `{}`) and id, and starts with no seen blocks, not booting and empty caches |
| ScenarioBlock.Block.Create | lib/scenario_block.js:13-33 | fails with the source's message iff there is no scenario; missing data becomes `{}` |
| ScenarioBlock.Block.BlockIdsWhenTrue | lib/scenario_block.js:120-137 | the truthy entries of `out_on_true` in order, or `[]` |
| ScenarioBlock.Block.BlockIdsWhenFalse | lib/scenario_block.js:144-161 | the truthy entries of `out_on_false` in order, or `[]` |
| ScenarioBlock.Block.ExitBlockIds | lib/scenario_block.js:168-170 | true ids followed by false ids, all truthy |
| ScenarioBlock.Block.ScanEntranceIds | lib/scenario_block.js:195-225 | the scan loop computes the deduplicated referrers of this id over all blocks in key order |
| ScenarioBlock.Block.AddIfReferrer | lib/scenario_block.js:204-224 | the inner loop adds the block's id once iff some exit leads here |
| ScenarioBlock.Block.EntranceBlockIds | lib/scenario_block.js:179-230 | the first read computes and stores the entrance ids; later reads return the stored list even if the graph changed |
| ScenarioBlock.Block.GetEntranceBlocks | lib/scenario_block.js:516-542 | fills the id cache first, then returns the stored block list or resolves the cached ids, dropping those with no live block |
| ScenarioBlock.Block.GetNextBlocks | lib/scenario_block.js:551-582 | resolves the true ids exactly when the value is truthy and the false ids otherwise, in order, skipping unknown ids, never longer than the id list |
| ScenarioBlock.Block.DoGetDescription | lib/scenario_block.js:258-274 | static text iff a static description exists and the callback is not forced; the hook iff forced, or no static text and (settings optional or non-empty); otherwise `title (unconfigured)` |
| ScenarioBlock.Block.StartBoot | lib/scenario_block.js:329-343 | runs once: once `booting` is set, later calls change nothing, and the flag is never reset |
| ScenarioBlock.Block.AfterBooting | lib/scenario_block.js:344-349 | a listener error goes to the callback and boot fails; otherwise the `boot` hook is awaited |
| ScenarioBlock.Block.Booted | lib/scenario_block.js:350-357 | a boot error goes to the callback and the block never boots; otherwise `booted` fires and every queued evaluation starts, each counted once |
| ScenarioBlock.Block.StartEvaluation | lib/scenario_block.js:371-390 | appends the trigger to `seen_blocks` at once, arms fresh once-guards, and increments `evaluation_count` by one after boot or queues the evaluation before it |
| ScenarioBlock.Block.SetResultValue | lib/scenario_block.js:490-507 | sets `has_result_value`, `has_silent_value = !!silently`, value and error, persists once, and changes nothing else |
| ScenarioBlock.Block.StoreResult | lib/scenario_block.js:492-503 | sets the flag, the silent flag, the value and the error, and records one store, keeping the block's invariant |
| ScenarioBlock.Block.Evaluated | lib/scenario_block.js:394-403 | stores the result before the callback, and the callback fires only if it has not fired yet |
| ScenarioBlock.Block.Specialised | lib/scenario_block.js:404-413 | a defined silent value is stored silently with a null error; the special callback fires at most once |
| ScenarioBlock.Block.Threw | lib/scenario_block.js:414-417 | a throw from `evaluate` becomes `callback(err)`, subject to the once-guard, with no result stored |
| ScenarioBlock.Block.FireCallback | lib/scenario_block.js:380 | the regulated callback fires iff its guard is unspent, then spends it |
| ScenarioBlock.Block.GetCurrentResult | lib/scenario_block.js:433-438 | the persisted record for this block in the given or active scope, created empty if missing |
| ScenarioBlock.Block.GetPreviousResult | lib/scenario_block.js:452-477 | without a snapshot it is the current result; otherwise the snapshot's record or `{}`, and a missing scope is created empty |
| ScenarioBlock.Block.Get | lib/scenario_block.js:595-613 | null without a variable table, undefined for an unknown name, otherwise the stored value |
| ScenarioBlock.Block.Set | lib/scenario_block.js:628-644 | false with no change without a table; otherwise stores `{value, type}`, after which `get(name)` returns the value and every other name is unchanged |
| ComponentRegistry.ResolveInput | lib/component/00_component.js:189-207 | a handler supplies its own name; a truthy `options.name` overrides it; otherwise `options.name` is set to the name; the spec's `fnc` is always the handler |
| ComponentRegistry.ProjectInputs | lib/component/00_component.js:90-96 | one `{name, title, type}` per input, same length and order |
| ComponentRegistry.ProjectOutputs | lib/component/00_component.js:98-104 | one `{name, title, type}` per output, same length and order, or the TypeError iff an output has no options |
| ComponentRegistry.ComponentClass.constructor | lib/component/00_component.js:138-143 | a class starts with empty input and output decks |
| ComponentRegistry.ComponentClass.SetDescription | lib/component/00_component.js:52-54 | stores the description |
| ComponentRegistry.ComponentClass.SetInput | lib/component/00_component.js:189-209 | registers the resolved spec under the resolved name (last write wins, position kept) |
| ComponentRegistry.ComponentClass.SetOutput | lib/component/00_component.js:218-232 | an object argument supplies `options.name`; fails with the source's message iff the name is falsy; otherwise stores the options under the name |
| ComponentRegistry.ComponentClass.AddCategory | lib/component/00_component.js:159-167 | starts the list if absent and appends the name unless present, so the list stays duplicate-free |
| ComponentRegistry.ComponentClass.GetClientConfig | lib/component/00_component.js:77-111 | inputs and outputs projected in registry order; `parent` present iff the super name is not `Component`; title falls back to the titleized type name |
| ComponentRegistry.ComponentClass.ListingOf | lib/component/00_component.js:251-291 | one listing: the `config` button iff `field_count` is nonzero, description `title + ' component'`, anchors projected in order |
| ComponentRegistry.GetAll | lib/component/00_component.js:241-297 | one listing per class of the group, in order, each with the class key, title, `title + ' component'`, field count, `[config]` or `[]` as buttons and its anchors projected in registry order; or the error iff some class has an output without options |
| ComponentSignal.Matching | lib/component/00_component.js:330-335 | only connections leaving the named anchor are kept, never more than given |
| ComponentSignal.MatchingMembers | lib/component/00_component.js:333-335 | a connection is routed iff it is outgoing and leaves the named anchor |
| ComponentSignal.MatchingAppend | lib/component/00_component.js:330-345 | routing preserves the declaration order of connections |
| ComponentSignal.MatchingStep | lib/component/00_component.js:330-335 | one more connection is kept exactly when it leaves the anchor |
| ComponentSignal.RoutableMatching | lib/component/00_component.js:337 | if every matching connection has a target, the routed connections all have targets |
| ComponentSignal.DistinctMeans | lib/component/00_component.js:339 | distinctness means pairwise-different signal objects |
| ComponentSignal.DistinctSnoc | lib/component/00_component.js:339 | appending a fresh clone keeps the clones distinct |
| ComponentSignal.Reaction | lib/component/00_component.js:358-367 | no handler call iff no input is registered under the anchor, else exactly one call of its `fnc` with the signal and the receiver |
| ComponentSignal.Handled | lib/component/00_component.js:330-345 | at most one handler call per routed connection |
| ComponentSignal.HandledSnoc | lib/component/00_component.js:344 | delivering one more clone appends its target's reaction |
| ComponentSignal.RoutedStep | lib/component/00_component.js:333-344 | routing one more matching connection appends its target's reaction |
| ComponentSignal.RoutedInvocations | lib/component/00_component.js:337-344 | delivering one more clone extends the handler calls made so far by exactly that delivery's reaction |
| ComponentSignal.HandledAllRegistered | lib/component/00_component.js:330-345 | when every target has a handler, the i-th call gets the i-th clone at the i-th target |
| ComponentSignal.Signal.constructor | lib/component/00_component.js:307 | a signal with the given type and value and no source |
| ComponentSignal.Signal.Clone | lib/component/00_component.js:339 | a fresh signal with the same type and value |
| ComponentSignal.Session.constructor | lib/component/00_component.js:337 | a session with no components and no handler calls |
| ComponentSignal.Session.AddComponent | lib/component/00_component.js:337 | the component is reachable under its uid |
| ComponentSignal.Component.constructor | lib/component/00_component.js:19-30 | stores session, data and settings (default `{}`); `uid == id == data.uid` |
| ComponentSignal.Component.Create | lib/component/00_component.js:13-30 | fails with the source's message iff there is no session; missing data becomes `{}`; `uid == id == data.uid` |
| ComponentSignal.Component.CreateSignal | lib/component/00_component.js:306-312 | a fresh signal with the given type and value whose source is this component |
| ComponentSignal.Component.GetInputConnections | lib/component/00_component.js:409-411 | the `in` list, or the TypeError iff `connections` is missing |
| ComponentSignal.Component.GetOutputConnections | lib/component/00_component.js:422-424 | the `out` list, or the TypeError iff `connections` is missing |
| ComponentSignal.Component.InputSignal | lib/component/00_component.js:358-367 | with no registered input nothing changes; otherwise the handler is called once with this component as receiver |
| ComponentSignal.Component.Deliver | lib/component/00_component.js:337-344 | a fresh clone with source this component and source anchor `name` goes to the target's `inputSignal` |
| ComponentSignal.Component.AllStampedMeans | lib/component/00_component.js:341-342 | all sent signals are stamped iff each is a distinct clone with the same type and value, this source and this anchor |
| ComponentSignal.Component.AllStampedSnoc | lib/component/00_component.js:339-342 | appending one more stamped clone keeps every sent signal stamped |
| ComponentSignal.Component.RouteConnection | lib/component/00_component.js:337-344 | a matching connection gets exactly one stamped fresh clone delivered |
| ComponentSignal.Component.RouteStep | lib/component/00_component.js:330-345 | one loop turn: matching connections deliver one clone, and other connections deliver nothing |
| ComponentSignal.Component.OutputSignal | lib/component/00_component.js:324-346 | for each outgoing connection on the anchor, in order, exactly one fresh, distinct, stamped clone reaches the target's `inputSignal`; other anchors get nothing |

## Left out

- Event-emitter machinery (`emit`, `after`, `emitOnce`): `booted` is a state flag plus the `pending` queue. The `booting` listeners are the `AfterBooting` step. The `evaluated` event is not modelled.
- `Function.regulate`, `Function.thrower` and `Function.dummy` are library helpers. Each once-only wrapper is a boolean guard. A missing callback is a callback whose invocation is logged.
- Subclass hooks `boot`, `evaluate`, `getDescription`, `savingScenario` and `doSavingScenario`: their effects are the inputs of `AfterBooting`, `Booted`, `Evaluated`, `Specialised` and `Threw`, and `DoGetDescription` only returns `FromHook` where the hook would run.
- Schema construction and the client-class registry (`getClientClass`, and the client-class half of `addCategory`): they are foreign classes. `schema` is left out of the descriptors, and `schema.field_count` is a class constant.
- `generate_static_variables`: editor/templating plumbing.
- `getMemory`, `getSessionMemory`, and the `loadCustomIO` constructor call: thin wrappers over classes not part of this model.
- The `scenario` getter of a component is folded into its `Session`.
- `console.log` calls are left out. `String.titleize` is a function parameter.
- The internals of the scenario document's `persistBlockValue` and `touchPersistedBlockValue`: they are modelled as a map from scope to block id to record.
- Asynchrony and reentrancy: input handlers run outside the model. A handler that itself emits signals, or a cyclic signal graph that would loop forever, is not modelled.
- The deferral of `setInput`/`setOutput` registration through `constitute` is not modelled: registration takes effect at once. The name check of `setOutput` still happens before registration.
- `ScenarioBlock.Block.Specialised`: a missing `special_callback` (which the regulated wrapper would have to call) is not distinguished from a present one.
- `ComponentSignal.Component.OutputSignal`: requires `data.connections` to be present and every matching target to exist. The source throws a TypeError in either case and guards against neither.
- `ComponentRegistry.ComponentClass.SetInput`: options are copied by value. The source writes `name` and `fnc` into the caller's options object and keeps that object in the deck by reference. A reused options object therefore carries the first call's name into the next call, and the next call's `fnc` overwrites the earlier entry. The model does not capture this aliasing.
- `ComponentRegistry.ComponentClass.SetInput` and `SetOutput`: inheritance through `constitute` is not modelled. In the source, each subclass re-runs `prepareIo` and its parent's registrations. Each `ComponentClass` here has its own registry, independent of `superName`.
- `ComponentRegistry.ComponentClass.SetOutput`: `setOutput(null)` (where `typeof null` is `'object'`) is not modelled, because anchor options are never null.
- The TypeError messages (`UndefinedOutputError`, `MissingConnectionsError`) use recent V8 wording (Node.js 16.9 and later). Other engines word them differently.
- `this.config = this.data` in the component constructor is not modelled: `config` is only an alias of `data`.
- Key enumeration order is an abstraction. JavaScript's `for (id in …)` and `for (key in group)` list integer-like keys first, in ascending order, and then the other keys in insertion order. `Scenario.order` (filled by `AddBlock`) and `GetAll`'s `group` are given in insertion order.
- Block ids are strings or absent, and numbers in values are integers. Floating-point ids and values are not modelled.
