/**
 * `Pipeline`: the source list that `pipeline | proc` collects, the graph
 * `_get_graph` builds from the sources, the `setup` and `teardown` hooks that
 * visit every node of that graph once, and what leaving the `with` block
 * does: setup, a run of the sources without argument, teardown.
 *
 * `_get_graph` is a recursive depth-first walk in Python; here it is a
 * worklist loop. Both add a processor the first time it is reached and never
 * again, so when the walk finishes they hold the same nodes; only the
 * insertion order differs (it follows Python's dictionary order of each
 * processor's relationships), and the model has no such order. The Python
 * walk also stops with a RecursionError on a chain of processors deeper than
 * the interpreter's recursion limit, which the worklist never does.
 */
module Pipelines {
  import opened Wrappers
  import opened Components
  import opened Runner

  /** A pipeline's state: its sources, in the order they were piped in. */
  datatype Pipeline = Pipeline(sources: seq<ProcId>)

  /** `Pipeline()`: no sources. */
  function NewPipeline(): (pl: Pipeline)
    ensures |pl.sources| == 0
  {
    Pipeline([])
  }

  /** `pipeline | other`: `other` becomes the last source and is returned, so
      `pipeline | a | b` goes on to pipe `a` into `b`. Adding a processor twice
      makes it a source twice. */
  function AddSource(pl: Pipeline, other: ProcId): (res: (Pipeline, ProcId))
    ensures res.1 == other
    ensures |res.0.sources| == |pl.sources| + 1
    ensures res.0.sources[..|pl.sources|] == pl.sources
    ensures res.0.sources[|pl.sources|] == other
  {
    (Pipeline(pl.sources + [other]), other)
  }

  /** `pipeline | p1`, `pipeline | p2`, ... one after the other. */
  function AddSources(pl: Pipeline, ps: seq<ProcId>): Pipeline
    decreases |ps|
  {
    if |ps| == 0 then pl else AddSources(AddSource(pl, ps[0]).0, ps[1..])
  }

  /** The sources of a pipeline are exactly the processors piped into it, in
      piping order, repetitions included. */
  lemma {:induction false} SourcesKeepPipingOrder(pl: Pipeline, ps: seq<ProcId>)
    ensures AddSources(pl, ps).sources == pl.sources + ps
    decreases |ps|
  {
    if |ps| > 0 {
      var next := AddSource(pl, ps[0]).0;
      SourcesKeepPipingOrder(next, ps[1..]);
      assert next.sources == pl.sources + [ps[0]];
      assert ps == [ps[0]] + ps[1..];
    }
  }

  /** Running a pipeline starts by calling `process()` without argument on
      each of its sources, in piping order. */
  lemma SourcesRunFirst<V>(arena: Arena, stages: Stages<V>, fuel: nat, ps: seq<ProcId>)
    ensures var trace := Run(arena, stages, fuel, AddSources(NewPipeline(), ps).sources, None);
      trace.Some? ==> |trace.value| >= |ps| && trace.value[..|ps|] == Invocations(ps, None)
  {
    SourcesKeepPipingOrder(NewPipeline(), ps);
    assert AddSources(NewPipeline(), ps).sources == ps;
    RunInvokesInOrder(arena, stages, fuel, ps, None);
  }

  // ---------------------------------------------------------------------
  // The graph
  // ---------------------------------------------------------------------

  /** One entry of `_get_graph`'s dictionary: the processor, and the list of
      destinations of each of its channels. */
  datatype Node = Node(proc: ProcId, channels: map<string, seq<ProcId>>)

  /** The graph, keyed by processor id. */
  type Graph = map<ProcId, Node>

  /** The node `add(proc)` stores for a processor. */
  function NodeOf(p: Processor): (n: Node)
    ensures n.proc == p.id
    ensures n.channels.Keys == p.channels.Keys
    ensures forall k :: k in p.channels ==> n.channels[k] == DestinationsOf(p, k)
  {
    Node(p.id, map k | k in p.channels :: p.channels[k].destinations)
  }

  /** A chain of connections: each element is a destination of the one before. */
  ghost predicate IsPath(arena: Arena, path: seq<ProcId>)
  {
    |path| > 0 && forall i :: 0 <= i < |path| - 1 ==> path[i + 1] in Successors(arena, path[i])
  }

  /** `x` can be reached from one of the sources by following connections. */
  ghost predicate Reachable(arena: Arena, sources: seq<ProcId>, x: ProcId)
  {
    exists path :: IsPath(arena, path) && path[0] in sources && path[|path| - 1] == x
  }

  lemma SourceIsReachable(arena: Arena, sources: seq<ProcId>, s: ProcId)
    requires s in sources
    ensures Reachable(arena, sources, s)
  {
    assert IsPath(arena, [s]);
  }

  /** The destinations of a reachable processor are reachable. */
  lemma ReachStep(arena: Arena, sources: seq<ProcId>, x: ProcId, y: ProcId)
    requires Reachable(arena, sources, x) && y in Successors(arena, x)
    ensures Reachable(arena, sources, y)
  {
    var path :| IsPath(arena, path) && path[0] in sources && path[|path| - 1] == x;
    var longer := path + [y];
    assert forall i :: 0 <= i < |path| ==> longer[i] == path[i];
    assert IsPath(arena, longer);
  }

  /** A set closed under connections holds the end of every path that starts in it. */
  lemma {:induction false} ClosedContainsPath(arena: Arena, s: set<ProcId>, path: seq<ProcId>)
    requires ClosedUnder(arena, s) && IsPath(arena, path) && path[0] in s
    ensures path[|path| - 1] in s
    decreases |path|
  {
    if |path| > 1 {
      var shorter := path[..|path| - 1];
      assert IsPath(arena, shorter);
      ClosedContainsPath(arena, s, shorter);
      assert path[|path| - 1] in Successors(arena, path[|path| - 2]);
    }
  }

  /** The state of `_get_graph` between two visits: `g` holds the nodes made
      so far and `todo` the processors still to look at. Everything in either
      is reachable, every source is in one of them, and each destination of a
      visited processor is visited or still to look at. */
  ghost predicate Frontier(arena: Arena, sources: seq<ProcId>, g: Graph, todo: set<ProcId>)
  {
    && todo <= arena.Keys && g.Keys <= arena.Keys
    && (forall x :: x in g ==> g[x] == NodeOf(arena[x]))
    && (forall x :: x in g ==> Reachable(arena, sources, x))
    && (forall x :: x in todo ==> Reachable(arena, sources, x))
    && (forall s :: s in sources ==> s in g || s in todo)
    && (forall x, y :: x in g && y in Successors(arena, x) ==> y in g || y in todo)
  }

  lemma FrontierStart(arena: Arena, sources: seq<ProcId>)
    requires forall s :: s in sources ==> s in arena
    ensures Frontier(arena, sources, map[], set s | s in sources)
  {
    forall s | s in sources ensures Reachable(arena, sources, s) {
      SourceIsReachable(arena, sources, s);
    }
  }

  /** A processor that already has a node is not visited again. */
  lemma FrontierSkip(arena: Arena, sources: seq<ProcId>, g: Graph, todo: set<ProcId>, x: ProcId)
    requires Frontier(arena, sources, g, todo) && x in todo && x in g
    ensures Frontier(arena, sources, g, todo - {x})
  {
  }

  /** Visiting a new processor gives it its node and schedules its destinations. */
  lemma FrontierVisit(arena: Arena, sources: seq<ProcId>, g: Graph, todo: set<ProcId>, x: ProcId)
    requires WellFormed(arena)
    requires Frontier(arena, sources, g, todo) && x in todo && x !in g
    ensures var g' := g[x := NodeOf(arena[x])];
      Frontier(arena, sources, g', (todo - {x}) + (Successors(arena, x) - g'.Keys))
  {
    forall y | y in Successors(arena, x) ensures Reachable(arena, sources, y) {
      ReachStep(arena, sources, x, y);
    }
  }

  /** With nothing left to look at, the nodes are exactly the reachable processors. */
  lemma FrontierDone(arena: Arena, sources: seq<ProcId>, g: Graph)
    requires Frontier(arena, sources, g, {})
    ensures forall x :: x in g <==> Reachable(arena, sources, x)
  {
    assert ClosedUnder(arena, g.Keys);
    forall x | Reachable(arena, sources, x) ensures x in g {
      var path :| IsPath(arena, path) && path[0] in sources && path[|path| - 1] == x;
      ClosedContainsPath(arena, g.Keys, path);
    }
  }

  /** A new node leaves one processor fewer without a node. */
  lemma FewerLeft(all: set<ProcId>, g: Graph, x: ProcId, n: Node)
    requires x in all && x !in g
    ensures |all - g[x := n].Keys| < |all - g.Keys|
  {
    assert all - g[x := n].Keys == (all - g.Keys) - {x};
  }

  /** `_get_graph`: every processor reachable from the sources gets exactly
      one node, holding its channels and their destination lists; nothing
      else gets one. A processor met a second time (a funnel, a diamond, a
      cycle) is not visited again. */
  method BuildGraph(arena: Arena, sources: seq<ProcId>) returns (g: Graph)
    requires WellFormed(arena)
    requires forall s :: s in sources ==> s in arena
    ensures forall x :: x in g <==> Reachable(arena, sources, x)
    ensures forall x :: x in g ==> x in arena && g[x] == NodeOf(arena[x])
  {
    g := map[];
    var todo: set<ProcId> := set s | s in sources;
    FrontierStart(arena, sources);
    while todo != {}
      invariant Frontier(arena, sources, g, todo)
      decreases |arena.Keys - g.Keys|, |todo|
    {
      var x :| x in todo;
      if x in g {
        FrontierSkip(arena, sources, g, todo, x);
        todo := todo - {x};
      } else {
        FrontierVisit(arena, sources, g, todo, x);
        FewerLeft(arena.Keys, g, x, NodeOf(arena[x]));
        g := g[x := NodeOf(arena[x])];
        todo := (todo - {x}) + (Successors(arena, x) - g.Keys);
      }
    }
    FrontierDone(arena, sources, g);
  }

  /** The graph's processors are closed under connections. */
  lemma GraphIsClosed(arena: Arena, sources: seq<ProcId>, g: Graph)
    requires forall x :: x in g <==> Reachable(arena, sources, x)
    ensures ClosedUnder(arena, g.Keys)
  {
    forall x, y | x in g.Keys && y in Successors(arena, x) ensures y in g.Keys {
      ReachStep(arena, sources, x, y);
    }
  }

  // ---------------------------------------------------------------------
  // setup and teardown
  // ---------------------------------------------------------------------

  /** The loop shared by `Pipeline.setup` and `Pipeline.teardown`, which calls
      a hook on the processor kept in each node: the processors whose hook
      runs, in the order the dictionary yields its nodes. On a graph whose
      nodes are stored under their own processor's id, every processor of the
      graph is visited exactly once. */
  method VisitNodes(g: Graph) returns (calls: seq<ProcId>)
    requires forall x :: x in g ==> g[x].proc == x
    ensures |calls| == |g|
    ensures forall x :: x in calls <==> x in g
    ensures forall i, j :: 0 <= i < j < |calls| ==> calls[i] != calls[j]
  {
    calls := [];
    var left := g.Keys;
    while left != {}
      invariant left <= g.Keys
      invariant forall x :: x in calls <==> x in g && x !in left
      invariant forall i, j :: 0 <= i < j < |calls| ==> calls[i] != calls[j]
      invariant |calls| + |left| == |g|
      decreases |left|
    {
      var k :| k in left;
      calls := calls + [g[k].proc];
      left := left - {k};
    }
  }

  /** `Pipeline.setup`: build the graph, then call `setup()` once on every
      processor reachable from the sources and on no other. */
  method Setup(arena: Arena, pl: Pipeline) returns (g: Graph, calls: seq<ProcId>)
    requires WellFormed(arena)
    requires forall s :: s in pl.sources ==> s in arena
    ensures forall x :: x in g <==> Reachable(arena, pl.sources, x)
    ensures forall x :: x in g ==> x in arena && g[x] == NodeOf(arena[x])
    ensures forall x :: x in calls <==> Reachable(arena, pl.sources, x)
    ensures forall i, j :: 0 <= i < j < |calls| ==> calls[i] != calls[j]
  {
    g := BuildGraph(arena, pl.sources);
    assert forall x :: x in g ==> g[x].proc == x by {
      assert forall x :: x in g ==> g[x].proc == arena[x].id;
    }
    calls := VisitNodes(g);
  }

  /** `Pipeline.teardown`: call `teardown()` once on every processor of the
      graph `setup` stored. */
  method Teardown(g: Graph) returns (calls: seq<ProcId>)
    requires forall x :: x in g ==> g[x].proc == x
    ensures |calls| == |g|
    ensures forall x :: x in calls <==> x in g
    ensures forall i, j :: 0 <= i < j < |calls| ==> calls[i] != calls[j]
  {
    calls := VisitNodes(g);
  }

  /** Leaving `with Pipeline() as p:` — setup, a run of the sources with no
      argument, teardown. `__exit__` has no `try`/`finally`, so teardown
      happens only when the run completes; a `None` trace (the run's
      RecursionError) skips it. Every processor the run invokes was set up
      first: processors not connected to a source are never invoked. */
  method Execute<V>(arena: Arena, stages: Stages<V>, fuel: nat, pl: Pipeline)
    returns (setUp: seq<ProcId>, trace: Trace<V>, tornDown: seq<ProcId>)
    requires WellFormed(arena)
    requires forall s :: s in pl.sources ==> s in arena
    ensures trace == Run(arena, stages, fuel, pl.sources, None)
    ensures forall x :: x in setUp <==> Reachable(arena, pl.sources, x)
    ensures trace.None? ==> tornDown == []
    ensures trace.Some? ==> forall x :: x in tornDown <==> x in setUp
    ensures trace.Some? ==> |tornDown| == |setUp|
    ensures forall i, j :: 0 <= i < j < |setUp| ==> setUp[i] != setUp[j]
    ensures forall i, j :: 0 <= i < j < |tornDown| ==> tornDown[i] != tornDown[j]
    ensures trace.Some? ==> forall c :: c in trace.value ==> c.proc in setUp
  {
    var g;
    g, setUp := Setup(arena, pl);
    trace := Run(arena, stages, fuel, pl.sources, None);
    GraphIsClosed(arena, pl.sources, g);
    forall s | s in pl.sources ensures s in g.Keys {
      SourceIsReachable(arena, pl.sources, s);
    }
    RunStaysInside(arena, stages, g.Keys, fuel, pl.sources, None);
    if trace.Some? {
      tornDown := Teardown(g);
    } else {
      tornDown := [];
    }
    assert |setUp| == |g| by {
      DistinctCount(setUp, g.Keys);
    }
  }

  /** A duplicate-free list holding exactly the elements of a set is as long as the set. */
  lemma {:induction false} DistinctCount(xs: seq<ProcId>, s: set<ProcId>)
    requires forall x :: x in xs <==> x in s
    requires forall i, j :: 0 <= i < j < |xs| ==> xs[i] != xs[j]
    ensures |xs| == |s|
    decreases |xs|
  {
    if |xs| > 0 {
      var rest := xs[1..];
      forall x | x in rest ensures x in s - {xs[0]} {
        var j :| 0 <= j < |rest| && rest[j] == x;
        assert xs[j + 1] == x;
      }
      forall x | x in s - {xs[0]} ensures x in rest {
        var j :| 0 <= j < |xs| && xs[j] == x;
        assert j != 0;
        assert rest[j - 1] == x;
      }
      DistinctCount(rest, s - {xs[0]});
    } else {
      assert s == {};
    }
  }

  // ---------------------------------------------------------------------
  // The node dictionary as the library writes it
  // ---------------------------------------------------------------------

  /** What a node dictionary slot holds: the processor under "proc", a
      destination list under each channel name. */
  datatype Slot = ProcSlot(proc: ProcId) | DestSlot(dests: seq<ProcId>)

  /** The node `add` builds, literally: first `node["proc"] = proc`, then
      `node[k] = [...]` for every channel `k`, later writes replacing earlier
      ones. */
  function RawNode(p: Processor): map<string, Slot>
  {
    map["proc" := ProcSlot(p.id)] + map k | k in p.channels :: DestSlot(p.channels[k].destinations)
  }

  /** The object `node["proc"].setup()` is called on: a processor, or `None`
      when the slot holds a list, whose missing `setup` attribute makes the
      call raise. */
  function RawHookTarget(p: Processor): Option<ProcId>
  {
    match RawNode(p)["proc"]
    case ProcSlot(x) => Some(x)
    case DestSlot(_) => None
  }

  /** As written, a relationship named "proc" overwrites the processor in its
      node, so setup and teardown fail on that node; every other processor
      is found under "proc", with its channels beside it as `NodeOf` has them. */
  lemma ProcChannelBreaksHooks(p: Processor)
    ensures RawHookTarget(p).None? <==> "proc" in p.channels
    ensures "proc" !in p.channels ==> RawHookTarget(p) == Some(p.id)
    ensures RawNode(p).Keys == NodeOf(p).channels.Keys + {"proc"}
    ensures forall k :: k in p.channels ==> RawNode(p)[k] == DestSlot(NodeOf(p).channels[k])
  {
    if "proc" in p.channels {
      assert RawNode(p)["proc"] == DestSlot(p.channels["proc"].destinations);
    } else {
      assert RawNode(p)["proc"] == ProcSlot(p.id);
    }
  }

  /** The smallest instance: `p >> "proc"` on a fresh processor. */
  lemma ProcChannelCounterexample()
    ensures var p := Channel(NewProcessor("a", None), "proc").0;
      RawHookTarget(p) == None && NodeOf(p).proc == "a"
  {
    var p := Channel(NewProcessor("a", None), "proc").0;
    ProcChannelBreaksHooks(p);
  }
}
