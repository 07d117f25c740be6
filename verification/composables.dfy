/**
 * The composable tree and its resolution into runner constructs.
 *
 * A composable is a deferred description of a task-runner operation
 * (series, parallel, source stream, destination, watcher, pump, function
 * wrapper, named task). Resolving it turns it, and transitively the
 * composables inside it, into the constructs the runner itself builds.
 * The runner is not modelled: what it would build is recorded as a `Term`.
 *
 * The source tells composables from everything else with `instanceof` on
 * an abstract base class whose own `compose` throws "Not implemented".
 * Here the composables are the closed datatype `Node` and a JS value holds
 * one exactly when it is `Comp`, so every resolution is a total match and
 * the abstract base's error cannot arise.
 */
module Composables {
  import opened Dict

  /** A JavaScript value as the composition layer sees it. */
  datatype Value =
    | Undefined
    | Null
    | Bool(b: bool)
    | Num(n: int)
    | Str(s: string)
    | Fn(id: nat)                          // a plain callback, named by its identity
    | Record(fields: map<string, Value>)   // an options object
    | Arr(items: seq<Value>)               // e.g. an array of globs
    | Comp(node: Node)                     // an instance of a composable class

  /** The composable node classes, one variant per class. */
  datatype Node =
    | Series(fns: seq<Value>)
    | Parallel(tasks: seq<Value>)
    | Src(globs: Value, options: Value, pipes: seq<Value>)
    | Dest(path: Value, options: Value)
    | Watch(globs: Value, options: Value, body: Value, events: Dict<string, Value>)
    | Pump(fns: seq<Value>, cb: Value)
    | Function(fn: Value)
    | Task(name: string, fn: Value)

  /** What the runner (and the stream pump) would build from a resolved node. */
  datatype Term =
    | Raw(v: Value)                                // a value handed over as it is
    | RSeries(items: seq<Term>)                    // gulp.series(...items)
    | RParallel(items: seq<Term>)                  // gulp.parallel(...items)
    | RSrc(globs: Value, options: Value)           // gulp.src(globs, options)
    | RPipe(stream: Term, stage: Term)             // stream.pipe(stage)
    | RDest(path: Value, options: Value)           // gulp.dest(path, options)
    | RWatcher(globs: Value, options: Value, body: Value,
               listeners: seq<(string, Value)>)    // gulp.watch(...) after its .on calls
    | RPump(stages: seq<Term>, cb: Value)          // pump(stages, cb)
    | RThunk(node: Node)                           // () => node.compose(gulp)
    | RTask(name: string, fn: Term)                // gulp.task(name, fn)

  /** JavaScript truthiness (numbers are modelled as integers, so there is no NaN). */
  predicate Truthy(v: Value)
  {
    match v
    case Undefined => false
    case Null => false
    case Bool(b) => b
    case Num(n) => n != 0
    case Str(s) => s != ""
    case _ => true
  }

  /** The empty options record `{}`. */
  const EmptyRecord: Value := Record(map[])

  /** `options ? options : {}`: the options a source stream is built with. */
  function DefaultOptions(options: Value): (r: Value)
    ensures Truthy(r)
    ensures Truthy(options) ==> r == options
    ensures !Truthy(options) ==> r == EmptyRecord
  {
    if Truthy(options) then options else EmptyRecord
  }

  /** Resolve a composable node into the runner construct it stands for. */
  function Resolve(n: Node): (r: Term)
    ensures r.Raw? ==> !r.v.Comp?
    decreases n
  {
    match n
    case Series(fns) => RSeries(MapIfPossible(fns))
    case Parallel(tasks) => RParallel(MapIfPossible(tasks))
    case Src(globs, options, pipes) => PipeAll(RSrc(globs, options), MapIfPossible(pipes))
    case Dest(path, options) => RDest(path, options)
    // the body is handed to the watcher unresolved
    case Watch(globs, options, body, events) => RWatcher(globs, options, body, events)
    case Pump(fns, cb) => RPump(MapIfPossible(fns), cb)
    // a wrapped composable becomes a thunk that only resolves it when called
    case Function(fn) => if fn.Comp? then RThunk(fn.node) else Raw(fn)
    case Task(name, fn) => RTask(name, ComposeIfPossible(fn))
  }

  /** Resolve a value if it is a composable; hand anything else over unchanged. */
  function ComposeIfPossible(v: Value): (r: Term)
    ensures !v.Comp? ==> r == Raw(v)
    ensures r.Raw? ==> !r.v.Comp?
    decreases v
  {
    match v
    case Comp(n) => Resolve(n)
    case _ => Raw(v)
  }

  /** Resolve every value of a list that is a composable, keeping length and order. */
  function MapIfPossible(vs: seq<Value>): (rs: seq<Term>)
    ensures |rs| == |vs|
    ensures forall i :: 0 <= i < |vs| ==> rs[i] == ComposeIfPossible(vs[i])
    decreases vs
  {
    if vs == [] then [] else [ComposeIfPossible(vs[0])] + MapIfPossible(vs[1..])
  }

  /** The value a Function thunk returns when it is called: the resolution, not invoked. */
  function CallThunk(t: Term): (r: Term)
    requires t.RThunk?
  {
    Resolve(t.node)
  }

  // ---------------------------------------------------------------------
  // Source streams: one pipe per stage, in registration order.

  /** Pipe `stages` into `source`, first stage first. */
  function PipeAll(source: Term, stages: seq<Term>): Term
    decreases |stages|
  {
    if stages == [] then source
    else RPipe(PipeAll(source, stages[..|stages| - 1]), stages[|stages| - 1])
  }

  /** The stream a chain of pipes starts from. */
  function Origin(t: Term): Term
  {
    if t.RPipe? then Origin(t.stream) else t
  }

  /** The stages piped into a stream, first piped first. */
  function StagesOf(t: Term): seq<Term>
  {
    if t.RPipe? then StagesOf(t.stream) + [t.stage] else []
  }

  /** Piping can be taken apart again: the starting stream and the stages, in order. */
  lemma {:induction false} PipeAllRoundTrip(source: Term, stages: seq<Term>)
    ensures Origin(PipeAll(source, stages)) == Origin(source)
    ensures StagesOf(PipeAll(source, stages)) == StagesOf(source) + stages
    decreases |stages|
  {
    if stages != [] {
      var n := |stages| - 1;
      PipeAllRoundTrip(source, stages[..n]);
      assert stages[..n] + [stages[n]] == stages;
    }
  }

  /**
   * A resolved source starts from `gulp.src(globs, options)` and applies one
   * pipe per stored stage, in registration order; a composable stage is
   * resolved before it is piped, any other stage is piped as it is.
   */
  lemma SrcResolution(globs: Value, options: Value, pipes: seq<Value>)
    ensures Origin(Resolve(Src(globs, options, pipes))) == RSrc(globs, options)
    ensures |StagesOf(Resolve(Src(globs, options, pipes)))| == |pipes|
    ensures forall i :: 0 <= i < |pipes| ==>
      StagesOf(Resolve(Src(globs, options, pipes)))[i] == ComposeIfPossible(pipes[i])
  {
    PipeAllRoundTrip(RSrc(globs, options), MapIfPossible(pipes));
  }

  // ---------------------------------------------------------------------
  // Series, parallel and the function wrapper.

  /**
   * A series or a parallel resolves to the runner's series or parallel of
   * the same number of children, each child resolved at its own index.
   */
  lemma SeriesParallelResolution(vs: seq<Value>)
    ensures Resolve(Series(vs)).RSeries? && Resolve(Parallel(vs)).RParallel?
    ensures |Resolve(Series(vs)).items| == |vs| == |Resolve(Parallel(vs)).items|
    ensures forall i :: 0 <= i < |vs| ==>
      Resolve(Series(vs)).items[i] == ComposeIfPossible(vs[i]) == Resolve(Parallel(vs)).items[i]
  {
  }

  /**
   * The function wrapper hands a non-composable over unchanged and turns a
   * composable into a thunk; calling the thunk gives the composable's
   * resolution, which the thunk does not itself invoke.
   */
  lemma FunctionResolution(v: Value)
    ensures !v.Comp? ==> Resolve(Function(v)) == Raw(v)
    ensures v.Comp? ==> Resolve(Function(v)) == RThunk(v.node)
    ensures v.Comp? ==> CallThunk(Resolve(Function(v))) == Resolve(v.node)
  {
  }

  /**
   * A pump resolves each of its stages like a series child and hands its
   * completion callback over as it is.
   */
  lemma PumpResolution(fns: seq<Value>, cb: Value)
    ensures Resolve(Pump(fns, cb)).RPump? && Resolve(Pump(fns, cb)).cb == cb
    ensures |Resolve(Pump(fns, cb)).stages| == |fns|
    ensures forall i :: 0 <= i < |fns| ==>
      Resolve(Pump(fns, cb)).stages[i] == ComposeIfPossible(fns[i])
  {
  }

  /** A destination forwards path and options as stored, with no default for the options. */
  lemma DestResolution(path: Value, options: Value)
    ensures Resolve(Dest(path, options)) == RDest(path, options)
    ensures Resolve(Dest(path, Undefined)).options == Undefined
  {
  }

  /**
   * A task's body is resolved before it is registered; a watcher's body is
   * handed to the runner as stored, even when it is a composable.
   */
  lemma BodyResolution(name: string, body: Value, globs: Value, options: Value, events: Dict<string, Value>)
    ensures Resolve(Task(name, body)) == RTask(name, ComposeIfPossible(body))
    ensures body.Comp? ==> Resolve(Task(name, body)).fn == Resolve(body.node)
    ensures Resolve(Watch(globs, options, body, events)).body == body
    ensures Resolve(Watch(globs, options, body, events)).listeners == events
  {
  }

  // ---------------------------------------------------------------------
  // No composable is left where the runner expects one of its own constructs.

  /**
   * A runner term in which every place the runner builds from (series and
   * parallel children, pipe stages, pump stages, task bodies) holds a
   * runner construct or a plain value, never a bare composable. The
   * watcher body and a thunk's node are deferred on purpose and not looked into.
   */
  predicate Settled(t: Term)
  {
    match t
    case Raw(v) => !v.Comp?
    case RSeries(items) => SettledAll(items)
    case RParallel(items) => SettledAll(items)
    case RPipe(stream, stage) => Settled(stream) && Settled(stage)
    case RPump(stages, _) => SettledAll(stages)
    case RTask(_, fn) => Settled(fn)
    case _ => true
  }

  predicate SettledAll(ts: seq<Term>)
  {
    if ts == [] then true else Settled(ts[0]) && SettledAll(ts[1..])
  }

  lemma {:induction false} PipeAllSettled(source: Term, stages: seq<Term>)
    requires Settled(source) && SettledAll(stages)
    ensures Settled(PipeAll(source, stages))
    decreases |stages|
  {
    if stages != [] {
      var n := |stages| - 1;
      SettledAllSplit(stages, n);
      PipeAllSettled(source, stages[..n]);
    }
  }

  lemma {:induction false} SettledAllSplit(ts: seq<Term>, n: nat)
    requires n < |ts| && SettledAll(ts)
    ensures SettledAll(ts[..n]) && Settled(ts[n])
  {
    if n > 0 {
      SettledAllSplit(ts[1..], n - 1);
      assert ts[1..][..n - 1] == ts[..n][1..];
    }
  }

  /** Resolution leaves no composable unresolved in the runner's own positions. */
  lemma {:induction false} ResolveSettled(n: Node)
    ensures Settled(Resolve(n))
    decreases n
  {
    match n
    case Series(fns) => MapSettled(fns);
    case Parallel(tasks) => MapSettled(tasks);
    case Src(globs, options, pipes) =>
      MapSettled(pipes);
      PipeAllSettled(RSrc(globs, options), MapIfPossible(pipes));
    case Dest(_, _) =>
    case Watch(_, _, _, _) =>
    case Pump(fns, _) => MapSettled(fns);
    case Function(fn) =>
    case Task(_, fn) => ComposeSettled(fn);
  }

  lemma {:induction false} ComposeSettled(v: Value)
    ensures Settled(ComposeIfPossible(v))
    decreases v
  {
    if v.Comp? {
      ResolveSettled(v.node);
    }
  }

  lemma {:induction false} MapSettled(vs: seq<Value>)
    ensures SettledAll(MapIfPossible(vs))
    decreases vs
  {
    if vs != [] {
      ComposeSettled(vs[0]);
      MapSettled(vs[1..]);
      assert MapIfPossible(vs)[1..] == MapIfPossible(vs[1..]);
    }
  }

  // ---------------------------------------------------------------------
  // Trees of series and parallels over plain callbacks.

  /** A value that is a plain callback or name, or a series/parallel of such trees. */
  predicate PlainTree(v: Value)
    decreases v
  {
    match v
    case Comp(Series(fns)) => PlainTrees(fns)
    case Comp(Parallel(tasks)) => PlainTrees(tasks)
    case Comp(_) => false
    case _ => true
  }

  predicate PlainTrees(vs: seq<Value>)
    decreases vs
  {
    if vs == [] then true else PlainTree(vs[0]) && PlainTrees(vs[1..])
  }

  /** The plain values of a tree, left to right: the reference definition. */
  function Flatten(v: Value): seq<Value>
    requires PlainTree(v)
    decreases v
  {
    match v
    case Comp(Series(fns)) => FlattenAll(fns)
    case Comp(Parallel(tasks)) => FlattenAll(tasks)
    case _ => [v]
  }

  function FlattenAll(vs: seq<Value>): seq<Value>
    requires PlainTrees(vs)
    decreases vs
  {
    if vs == [] then [] else Flatten(vs[0]) + FlattenAll(vs[1..])
  }

  /** The leaves of a runner term: what series and parallel terms hold, left to right. */
  function Leaves(t: Term): seq<Term>
  {
    match t
    case RSeries(items) => LeavesAll(items)
    case RParallel(items) => LeavesAll(items)
    case _ => [t]
  }

  function LeavesAll(ts: seq<Term>): seq<Term>
  {
    if ts == [] then [] else Leaves(ts[0]) + LeavesAll(ts[1..])
  }

  function RawAll(vs: seq<Value>): (ts: seq<Term>)
    ensures |ts| == |vs| && forall i :: 0 <= i < |vs| ==> ts[i] == Raw(vs[i])
  {
    if vs == [] then [] else [Raw(vs[0])] + RawAll(vs[1..])
  }

  lemma {:induction false} RawAllAppend(a: seq<Value>, b: seq<Value>)
    ensures RawAll(a + b) == RawAll(a) + RawAll(b)
  {
  }

  /** A list of plain values is a tree that flattens to itself. */
  lemma {:induction false} PlainValues(vs: seq<Value>)
    requires forall i :: 0 <= i < |vs| ==> !vs[i].Comp?
    ensures PlainTrees(vs) && FlattenAll(vs) == vs
  {
    if vs != [] {
      PlainValues(vs[1..]);
    }
  }

  /**
   * Nesting is transparent: the leaves of a resolved series/parallel tree
   * are its plain callbacks and names, each once, in left-to-right order.
   */
  lemma {:induction false} FlattenLeaves(v: Value)
    requires PlainTree(v)
    ensures Leaves(ComposeIfPossible(v)) == RawAll(Flatten(v))
    decreases v
  {
    match v
    case Comp(Series(fns)) => FlattenLeavesAll(fns);
    case Comp(Parallel(tasks)) => FlattenLeavesAll(tasks);
    case _ =>
  }

  lemma {:induction false} FlattenLeavesAll(vs: seq<Value>)
    requires PlainTrees(vs)
    ensures LeavesAll(MapIfPossible(vs)) == RawAll(FlattenAll(vs))
    decreases vs
  {
    if vs != [] {
      FlattenLeaves(vs[0]);
      FlattenLeavesAll(vs[1..]);
      assert MapIfPossible(vs)[1..] == MapIfPossible(vs[1..]);
      RawAllAppend(Flatten(vs[0]), FlattenAll(vs[1..]));
    }
  }

  /**
   * `series(parallel(f1, f2), series(f3))`: the runner's tree reaches f1,
   * f2 and f3, in that order.
   */
  lemma NestedTreeLeaves(f1: Value, f2: Value, f3: Value)
    requires !f1.Comp? && !f2.Comp? && !f3.Comp?
    ensures Leaves(Resolve(Series([Comp(Parallel([f1, f2])), Comp(Series([f3]))])))
         == [Raw(f1), Raw(f2), Raw(f3)]
  {
    var inner := [f1, f2];
    var outer := [Comp(Parallel(inner)), Comp(Series([f3]))];
    PlainValues(inner);
    PlainValues([f3]);
    assert outer[1..] == [Comp(Series([f3]))] && outer[1..][1..] == [];
    assert PlainTree(outer[0]) && PlainTree(outer[1]);
    assert PlainTrees(outer[1..]);
    assert PlainTrees(outer);
    assert FlattenAll(outer[1..]) == [f3];
    assert FlattenAll(outer) == [f1, f2, f3];
    FlattenLeaves(Comp(Series(outer)));
  }
}
