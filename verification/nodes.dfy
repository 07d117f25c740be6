/**
 * The two composables whose state is changed after construction: a source
 * stream, whose pipe stages are appended one by one, and a watcher, whose
 * event callbacks are registered one by one. Each is a class over the
 * source's own fields; `AsNode` gives its current value as a `Node`.
 */
module Nodes {
  import opened Dict
  import opened Composables

  /** A source stream under construction: `src(globs, options).pipe(...)...`. */
  class SrcNode {
    var globs: Value
    var options: Value
    var pipes: seq<Value>

    /** The options are never falsy once stored: falsy ones were replaced by `{}`. */
    ghost predicate Valid()
      reads this
    {
      Truthy(options)
    }

    /** Stores the globs as given and the options defaulted to `{}`; no stages yet. */
    constructor (globs: Value, options: Value)
      ensures Valid()
      ensures this.globs == globs
      ensures this.options == DefaultOptions(options)
      ensures pipes == []
    {
      this.globs := globs;
      this.options := DefaultOptions(options);
      this.pipes := [];
    }

    function AsNode(): Node
      reads this
    {
      Src(globs, options, pipes)
    }

    /** Appends one stage and returns the node itself, for chaining. */
    method Pipe(stage: Value) returns (self: SrcNode)
      requires Valid()
      modifies this
      ensures Valid() && self == this
      ensures pipes == old(pipes) + [stage]
      ensures globs == old(globs) && options == old(options)
    {
      pipes := pipes + [stage];
      self := this;
    }

    /**
     * Builds the runner's source for the globs and options, then pipes each
     * stage into it in turn, resolving a composable stage first.
     */
    method Compose() returns (source: Term)
      ensures source == Resolve(AsNode())
    {
      ghost var stages := MapIfPossible(pipes);
      source := RSrc(globs, options);
      for i := 0 to |pipes|
        invariant source == PipeAll(RSrc(globs, options), stages[..i])
      {
        var stage := pipes[i];
        if stage.Comp? {
          source := RPipe(source, Resolve(stage.node));
        } else {
          source := RPipe(source, Raw(stage));
        }
        assert stages[..i + 1][..i] == stages[..i];
      }
      assert stages[..|pipes|] == stages;
    }
  }

  /** A file watcher under construction: `watch(globs, options, fns)` and its `.on` calls. */
  class WatchNode {
    var globs: Value
    var options: Value
    var body: Value
    var events: Dict<string, Value>

    /** At most one callback per event name. */
    ghost predicate Valid()
      reads this
    {
      DistinctKeys(events)
    }

    /**
     * With a falsy third argument the second one is the body and the
     * options are `undefined`; otherwise all three are stored as given.
     */
    constructor (globs: Value, options: Value, fns: Value)
      ensures Valid()
      ensures this.globs == globs && events == []
      ensures Truthy(fns) ==> this.options == options && body == fns
      ensures !Truthy(fns) ==> this.options == Undefined && body == options
    {
      this.globs := globs;
      if Truthy(fns) {
        this.options := options;
        this.body := fns;
      } else {
        this.options := Undefined;
        this.body := options;
      }
      this.events := [];
    }

    function AsNode(): Node
      reads this
    {
      Watch(globs, options, body, events)
    }

    /** `events[eventName] = cb`: a later callback for the same name replaces the earlier one. */
    method On(eventName: string, cb: Value)
      requires Valid()
      modifies this
      ensures Valid()
      ensures events == Put(old(events), eventName, cb)
      ensures globs == old(globs) && options == old(options) && body == old(body)
    {
      PutDistinct(events, eventName, cb);
      events := Put(events, eventName, cb);
    }

    /**
     * Asks the runner for a watcher over the globs with the options and the
     * unresolved body, then attaches every stored event callback to it, in
     * iteration order, and returns that watcher.
     */
    method Compose() returns (watcher: Term)
      ensures watcher == Resolve(AsNode())
    {
      watcher := RWatcher(globs, options, body, []);
      for i := 0 to |events|
        invariant watcher == RWatcher(globs, options, body, events[..i])
      {
        var (eventName, cb) := events[i];
        watcher := watcher.(listeners := watcher.listeners + [(eventName, cb)]);
        assert events[..i + 1] == events[..i] + [events[i]];
      }
      assert events[..|events|] == events;
    }
  }
}
