/**
 * The orchestrator: a registry of named tasks and a list of watchers,
 * factories for the composables, and `compose`, which resolves everything
 * registered against the runner.
 *
 * The runner is not modelled; `Compose` returns the constructs it hands to
 * the runner, in order: one task registration per registered task, then
 * one watcher per registered watcher.
 *
 * The factories `dest`, `fn`, `pump`, `series` and `parallel` only build a
 * node and are the `Node` constructors `Dest`, `Function`, `Pump`,
 * `Series` and `Parallel` themselves.
 */
module Orchestrator {
  import opened Dict
  import opened Composables
  import opened Nodes

  /** A registry entry: the name maps to a Task node of that name with a truthy body. */
  predicate TaskEntry(e: (string, Node))
  {
    e.1.Task? && e.1.name == e.0 && Truthy(e.1.fn)
  }

  class GulpCompose {
    var tasks: Dict<string, Node>
    var watchers: seq<WatchNode>

    ghost predicate Valid()
      reads this
    {
      && DistinctKeys(tasks)
      && forall i :: 0 <= i < |tasks| ==> TaskEntry(tasks[i])
    }

    constructor ()
      ensures Valid()
      ensures tasks == [] && watchers == []
    {
      tasks := [];
      watchers := [];
    }

    /** A new source node; nothing is registered. */
    method Src(globs: Value, options: Value) returns (s: SrcNode)
      ensures fresh(s) && s.Valid()
      ensures s.globs == globs && s.options == DefaultOptions(options) && s.pipes == []
    {
      s := new SrcNode(globs, options);
    }

    /** A new watcher node, which is also appended to the watcher list. */
    method Watch(globs: Value, options: Value, fns: Value) returns (w: WatchNode)
      requires Valid()
      modifies this
      ensures Valid() && fresh(w) && w.Valid()
      ensures watchers == old(watchers) + [w] && tasks == old(tasks)
      ensures w.globs == globs && w.events == []
      ensures Truthy(fns) ==> w.options == options && w.body == fns
      ensures !Truthy(fns) ==> w.options == Undefined && w.body == options
    {
      w := new WatchNode(globs, options, fns);
      watchers := watchers + [w];
    }

    /**
     * With a falsy body: returns the stored node (`None` for `undefined`)
     * and changes nothing. Otherwise: stores a new Task node under the
     * name, replacing any earlier one, and returns nothing.
     */
    method Task(name: string, fn: Value) returns (stored: Option<Node>)
      requires Valid()
      modifies this
      ensures Valid() && watchers == old(watchers)
      ensures !Truthy(fn) ==> stored == Get(old(tasks), name) && tasks == old(tasks)
      ensures Truthy(fn) ==> stored == None && tasks == Put(old(tasks), name, Node.Task(name, fn))
    {
      if !Truthy(fn) {
        stored := Get(tasks, name);
        return;
      }
      PutDistinct(tasks, name, Node.Task(name, fn));
      PutEntries(tasks, name, Node.Task(name, fn));
      ghost var before := tasks;
      tasks := Put(tasks, name, Node.Task(name, fn));
      stored := None;
      forall i | 0 <= i < |tasks|
        ensures TaskEntry(tasks[i])
      {
        assert tasks[i] in tasks;
        if tasks[i] != (name, Node.Task(name, fn)) {
          var j :| 0 <= j < |before| && before[j] == tasks[i];
        }
      }
    }

    /**
     * Registers every stored task with the runner, its body resolved, in
     * the registry's iteration order; then resolves every watcher, in the
     * order they were created.
     */
    method Compose() returns (registered: seq<Term>)
      requires Valid()
      ensures |registered| == |tasks| + |watchers|
      ensures forall i :: 0 <= i < |tasks| ==>
        registered[i] == RTask(tasks[i].0, ComposeIfPossible(tasks[i].1.fn))
      ensures forall j :: 0 <= j < |watchers| ==>
        registered[|tasks| + j] == Resolve(watchers[j].AsNode())
    {
      registered := [];
      var nodes := Values(tasks);
      for i := 0 to |nodes|
        invariant |registered| == i
        invariant forall k :: 0 <= k < i ==>
          registered[k] == RTask(tasks[k].0, ComposeIfPossible(tasks[k].1.fn))
      {
        assert TaskEntry(tasks[i]);
        registered := registered + [Resolve(nodes[i])];
      }
      for j := 0 to |watchers|
        invariant |registered| == |tasks| + j
        invariant forall k :: 0 <= k < |tasks| ==>
          registered[k] == RTask(tasks[k].0, ComposeIfPossible(tasks[k].1.fn))
        invariant forall k :: 0 <= k < j ==>
          registered[|tasks| + k] == Resolve(watchers[k].AsNode())
      {
        var watcher := watchers[j].Compose();
        registered := registered + [watcher];
      }
    }
  }

  /**
   * `task('test', series(f1, f2))`: the registry holds the task, and
   * composing registers `test` as the runner's series of f1 then f2.
   */
  method SeriesTaskScenario(f1: Value, f2: Value) returns (stored: Option<Node>, registered: seq<Term>)
    requires !f1.Comp? && !f2.Comp?
    ensures stored == Some(Node.Task("test", Comp(Series([f1, f2]))))
    ensures registered == [RTask("test", RSeries([Raw(f1), Raw(f2)]))]
  {
    var gc := new GulpCompose();
    var none := gc.Task("test", Comp(Series([f1, f2])));
    stored := gc.Task("test", Undefined);
    assert gc.tasks == [("test", Node.Task("test", Comp(Series([f1, f2]))))];
    registered := gc.Compose();
    assert MapIfPossible([f1, f2]) == [Raw(f1), Raw(f2)];
    assert registered[0] == RTask("test", Resolve(Series([f1, f2])));
    assert registered == [registered[0]];
  }

  /**
   * `task('test', fn(series(f1, f2)))`: the task is registered as a thunk;
   * calling the thunk gives the runner's series of f1 then f2.
   */
  method FunctionTaskScenario(f1: Value, f2: Value) returns (registered: seq<Term>)
    requires !f1.Comp? && !f2.Comp?
    ensures |registered| == 1 && registered[0] == RTask("test", RThunk(Series([f1, f2])))
    ensures CallThunk(registered[0].fn) == RSeries([Raw(f1), Raw(f2)])
  {
    var gc := new GulpCompose();
    var none := gc.Task("test", Comp(Function(Comp(Series([f1, f2])))));
    assert gc.tasks == [("test", Node.Task("test", Comp(Function(Comp(Series([f1, f2]))))))];
    registered := gc.Compose();
    assert registered[0] == RTask("test", Resolve(Function(Comp(Series([f1, f2])))));
    assert MapIfPossible([f1, f2]) == [Raw(f1), Raw(f2)];
  }

  /**
   * `src(globs).pipe(a).pipe(b)` keeps the globs, defaults the options to
   * `{}` and holds `[a, b]`; `src(globs, options)` keeps truthy options.
   */
  method SrcScenario(globs: Value, options: Value, a: Value, b: Value)
    returns (plain: SrcNode, withOptions: SrcNode)
    requires Truthy(options)
    ensures plain.globs == globs && plain.options == EmptyRecord && plain.pipes == [a, b]
    ensures withOptions.globs == globs && withOptions.options == options
    ensures withOptions.pipes == [a, b]
  {
    var gc := new GulpCompose();
    plain := gc.Src(globs, Undefined);
    assert plain.Valid();
    plain := plain.Pipe(a);
    plain := plain.Pipe(b);
    withOptions := gc.Src(globs, options);
    withOptions := withOptions.Pipe(a);
    withOptions := withOptions.Pipe(b);
  }

  /**
   * `watch(file, cb)`: the watcher gets the body `cb` and no options. The
   * two `change` callbacks, and composing through the orchestrator rather
   * than the node itself, are additions to the repository's watch test;
   * only the later callback is attached.
   */
  method WatchScenario(file: Value, cb: Value, first: Value, second: Value)
    returns (registered: seq<Term>)
    ensures registered == [RWatcher(file, Undefined, cb, [("change", second)])]
  {
    var gc := new GulpCompose();
    var w := gc.Watch(file, cb, Undefined);
    w.On("change", first);
    w.On("change", second);
    assert w.events == [("change", second)];
    assert gc.watchers == [w] && gc.tasks == [];
    assert w.AsNode() == Watch(file, Undefined, cb, [("change", second)]);
    registered := gc.Compose();
    assert registered[|gc.tasks| + 0] == Resolve(gc.watchers[0].AsNode());
    assert registered[0] == Resolve(Watch(file, Undefined, cb, [("change", second)]));
    assert registered == [registered[0]];
  }
}
