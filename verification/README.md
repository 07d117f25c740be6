# gulp-composer, modelled in Dafny

gulp-composer is a small fluent layer over the gulp task runner. Callers
build a tree of deferred *composables* (series, parallel, source streams
with pipe stages, destinations, watchers, pumps, function wrappers, named
tasks), register named tasks and watchers with an orchestrator
(`gulpCompose`), and call `compose()` once to turn the whole tree into
gulp's own constructs.

This project models that layer:

- `dict.dfy` (module `Dict`): a JavaScript object used as a dictionary. It
  is an association list in own-property order, with `Get` (`obj[k]`) and
  `Put` (`obj[k] = v`). The lemmas give the last-write-wins behaviour, the
  iteration order and the one-entry-per-name invariant.
- `composables.dfy` (module `Composables`): JavaScript values (`Value`),
  the composable node classes as one closed datatype (`Node`), and what the
  runner would build (`Term`). `Resolve`, `ComposeIfPossible` and
  `MapIfPossible` model the `compose` methods, `composeIfPossible` and
  `mapComposablesIfPossible`, with lemmas about them. The `instanceof` test
  becomes the `Comp` constructor. Every node variant has its own case, so
  the abstract base class's "Not implemented" error cannot arise and is not
  modelled.
- `nodes.dfy` (module `Nodes`): the two composables whose fields change
  after construction, as classes. `SrcNode` has its `pipes` list and
  `WatchNode` its `events` table. Their `Compose` methods are the source's
  loops, each proved equal to `Resolve` of the node's current value.
- `orchestrator.dfy` (module `Orchestrator`): `GulpCompose`, with its
  `tasks` registry and `watchers` list, the `src`, `watch` and `task`
  operations, and `compose`. It also holds scenarios that follow the
  repository's tests.

The factories `dest`, `fn`, `pump`, `series` and `parallel` only construct
a node. They are the `Node` constructors `Dest`, `Function`, `Pump`,
`Series` and `Parallel`.

The runner (gulp, undertaker) and the `pump` stream utility are not
modelled. What they would be asked to build is recorded as a `Term`:
`RSeries`, `RParallel`, `RSrc` with `RPipe` per stage, `RDest`, `RWatcher`
with its attached listeners, `RPump`, `RThunk` for the function wrapper's
closure, and `RTask` for a task registration. `GulpCompose.Compose`
returns the list of constructs handed to the runner, in order, in place
of the runner object the source returns.

The model keeps these details of the code:

- A watcher's body is passed to the runner unresolved (index.js:108). A
  task's body is resolved (index.js:149).
- The function wrapper around a composable becomes a zero-argument closure
  that resolves the composable and returns the result (index.js:136). One
  might expect the closure to run that result; it does not, and the test at
  test.js:235 calls the closure with a completion callback that it never
  receives. `CallThunk` and `FunctionTaskScenario` state the behaviour as
  written.
- A destination's options are not defaulted (index.js:81); a source's are
  (index.js:55).

## Model

| member | source | states |
|---|---|---|
| `Dict.Get` | index.js:192 | Reading a name gives a value exactly when the name is a key, and the value is the one stored under it |
| `Dict.PutGetSame` | index.js:104 | After `obj[k] = v`, reading `k` gives `v`, so the last write for a name wins |
| `Dict.PutGetOther` | index.js:193 | Writing one name leaves every other name's value unchanged |
| `Dict.PutKeys` | index.js:104 | Writing an existing name keeps the key order. Writing a new name appends it, so a name is never listed twice |
| `Dict.PutDistinct` | index.js:193 | Writing keeps at most one entry per name |
| `Dict.PutEntries` | index.js:193 | After a write, every entry is either an earlier entry or the one just written |
| `Composables.DefaultOptions` | index.js:55 | Truthy options are kept as given. Falsy options become the empty record. The result is always truthy |
| `Composables.ComposeIfPossible` | index.js:15-18 | A non-composable (callback, task-name string, ...) is returned unchanged. A raw result is never a composable |
| `Composables.MapIfPossible` | index.js:11-13 | Same length as the input; the element at each index is the input at that index, resolved if it is a composable |
| `Composables.Resolve` | index.js:20-151 | One case per node class, so the base class's "Not implemented" cannot be reached. A `Raw` term never holds a composable (a watcher body, forwarded as stored, is not a `Raw` term) |
| `Composables.SeriesParallelResolution` | index.js:29-49 | A series or a parallel resolves to the runner's series or parallel with the same number of children. The child at each index is the original child at that index, resolved if it is a composable |
| `Composables.PipeAllRoundTrip` | index.js:64-73 | Piping stages into a stream can be undone: the chain starts from the original stream and carries exactly the given stages, in order |
| `Composables.SrcResolution` | index.js:64-74 | A resolved source starts from the runner's source for the stored globs and options. It has one pipe per stored stage, in registration order, and a composable stage is resolved before it is piped |
| `Composables.PumpResolution` | index.js:116-126 | A pump's stages are resolved index by index with the length kept; its completion callback is passed unchanged |
| `Composables.DestResolution` | index.js:77-87 | A destination forwards its path and options as stored; undefined options stay undefined |
| `Composables.BodyResolution` | index.js:107-113 | A task's body is resolved before registration (index.js:148-150). A watcher's body is forwarded exactly as stored, even when it is a composable. The watcher's listeners are exactly the stored events |
| `Composables.FunctionResolution` | index.js:128-139 | A non-composable is returned unchanged. A composable becomes a thunk, and calling the thunk returns the composable's resolution without running it |
| `Composables.ResolveSettled` | index.js:7-18 | After resolution no bare composable is left in a series or parallel child, a pipe stage, a pump stage or a task body |
| `Composables.FlattenLeaves` | index.js:7-13 | For a tree of series and parallels over plain values, the leaves of the resolved term are the tree's plain values, each once, in left-to-right order |
| `Composables.NestedTreeLeaves` | test.js:130-161 | `series(parallel(f1, f2), series(f3))` resolves to a term whose leaves are f1, f2, f3 in that order |
| `Nodes.SrcNode.constructor` | index.js:52-57 | The globs are stored as given. The options are defaulted to `{}` when falsy, so the stored options are truthy (`Valid`). The stage list starts empty |
| `Nodes.SrcNode.Pipe` | index.js:59-62 | Appends exactly one stage at the end, returns the same node, and leaves globs and options unchanged, so the options stay truthy |
| `Nodes.SrcNode.Compose` | index.js:64-74 | The loop that pipes each stage, resolving composable stages, builds exactly the resolved source |
| `Nodes.WatchNode.constructor` | index.js:91-101 | With a falsy third argument, the second argument becomes the body and the options are undefined. Otherwise all three are stored as given. The event table starts empty |
| `Nodes.WatchNode.On` | index.js:103-105 | The event table becomes `Put(old table, name, cb)`, keeping one callback per name. Globs, options and body do not change |
| `Nodes.WatchNode.Compose` | index.js:107-113 | Creates the runner's watcher with the stored globs, options and unresolved body. Attaches exactly the stored event/callback pairs, in iteration order, and returns that watcher |
| `Orchestrator.GulpCompose.constructor` | index.js:154-159 | Starts with an empty task registry and an empty watcher list |
| `Orchestrator.GulpCompose.Src` | index.js:161-163 | Returns a new source node built from the arguments; nothing is registered |
| `Orchestrator.GulpCompose.Watch` | index.js:169-173 | Returns a new watcher node with the constructor's argument shift. Appends it to the watcher list and leaves the task registry unchanged |
| `Orchestrator.GulpCompose.Task` | index.js:191-194 | With a falsy body, returns the stored node (none if absent) and changes nothing. Otherwise, stores a new Task node under the name, leaves the other names untouched and returns nothing. Each name keeps exactly one Task node of that name |
| `Orchestrator.GulpCompose.Compose` | index.js:196-200 | One top-level registration per stored task (its name, with its body resolved), in registry order, then every watcher resolved in creation order. A registration reached inside a body (a Task node returned by the getter and placed in a tree) appears as a nested `RTask` term, not as a further top-level entry |
| `Orchestrator.SeriesTaskScenario` | test.js:9-35 | After `task('test', series(f1, f2))`, the registry holds that Task node, and compose registers `test` as the runner's series of f1 then f2 |
| `Orchestrator.FunctionTaskScenario` | test.js:212-241 | `task('test', fn(series(f1, f2)))` registers a thunk. Calling it gives the runner's series of f1 then f2, unexecuted |
| `Orchestrator.SrcScenario` | test.js:102-128 | `src(globs).pipe(a).pipe(b)` keeps the globs, has `{}` options and holds `[a, b]`. Explicit options are kept as given |
| `Orchestrator.WatchScenario` | test.js:250-264 | `watch(file, cb)` plus two `change` callbacks gives a watcher with body `cb`, undefined options and only the later callback |

## Left out

- The runner calls `gulp.series`, `parallel`, `src`, `dest`, `watch` and `task`, and the forward-reference registry (index.js:3, index.js:155-156), are foreign library calls. They appear only as `Term` constructors, with no behaviour.
- The `pump` stream utility (index.js:4, index.js:124) is a foreign library. Only the stage resolution before it is modelled, and `RPump` records its arguments.
- Execution is not modelled: callbacks running, `done` continuations, run-time series ordering and parallel concurrency. The model states the order of leaves in the resolved term instead.
- File-system watching, temporary files and timers in the tests are I/O.
- The `require('gulp')` default runner and the unused `tempy` import (index.js:5, index.js:155) are module plumbing.
- Aliasing: a composable placed inside another node is captured as its value at that moment. In the source, a source node piped after being placed in a tree is seen changed by that tree; the model does not capture this. The orchestrator's watcher list holds the `WatchNode` objects themselves, so `on` calls made after `watch` are seen by `compose`.
- Object identity: `===` on options and globs is modelled as value equality.
- JavaScript's key order puts integer-like keys (`"1"`) first. The model keeps insertion order for every key.
- Names inherited from `Object.prototype` (`tasks['constructor']`) are not modelled. For them the source's getter returns a built-in instead of `undefined`.
- Numbers are integers, so `NaN` (falsy) is not a value of the model. Task and event names are strings, without JavaScript's key coercion.
- A pump's stage list is typed as a list, so `pump(x, cb)` with a non-array `x`, for which `this.fns.map` throws a TypeError (index.js:124), cannot be expressed. Likewise a series, parallel or source stage list is always a list.
- `Watch.on` returns `undefined`, so it cannot be chained. The model's `On` returns nothing.
- Calling `compose()` twice would register every watcher twice with the runner. The model's `Compose` changes no state, and the runner's side of repeated registration is not modelled.
