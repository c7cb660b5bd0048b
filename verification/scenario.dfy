/**
 * The library's own end-to-end example: a source yielding
 * `("success", "foo")`, `("success", "bar")`, `("success", "baz")`, piped
 * into a transformer yielding `("success", x + x)`, piped into a sink that
 * records its argument and returns `None`.
 */
module Scenario {
  import opened Wrappers
  import opened Components
  import opened Schedule
  import opened Runner
  import opened Pipelines

  const Src: ProcId := "src"
  const Trn: ProcId := "trn"
  const Dest: ProcId := "dest"

  /** `src | trn | dest` on three fresh processors. */
  function ChainArena(): Arena
  {
    var src := Pipe(NewProcessor(Src, None), Trn).0;
    var trn := Pipe(NewProcessor(Trn, None), Dest).0;
    map[Src := src, Trn := trn, Dest := NewProcessor(Dest, None)]
  }

  /** The three stages of the example. */
  function ChainStage(p: ProcId, input: Option<string>): Output<string>
  {
    if p == Src && input.None? then
      Some([Emit(SuccessChannel, "foo"), Emit(SuccessChannel, "bar"), Emit(SuccessChannel, "baz")])
    else if p == Trn && input.Some? then Some([Emit(SuccessChannel, input.value + input.value)])
    else None
  }

  /** The arguments a processor was called with, in call order. */
  function InputsOf<V>(calls: seq<Call<V>>, p: ProcId): seq<Option<V>>
  {
    if |calls| == 0 then []
    else (if calls[0].proc == p then [calls[0].input] else []) + InputsOf(calls[1..], p)
  }

  lemma ChainArenaIsWellFormed()
    ensures WellFormed(ChainArena())
  {
  }

  /** `src | trn | dest` connects each processor's success channel to the next one. */
  lemma ChainWiring()
    ensures RelationshipOf(ChainArena(), Src, SuccessChannel) == Some(Relationship([Trn]))
    ensures RelationshipOf(ChainArena(), Trn, SuccessChannel) == Some(Relationship([Dest]))
    ensures RelationshipOf(ChainArena(), Dest, SuccessChannel) == None
  {
  }

  /** The connections the example relies on. */
  predicate Chained(arena: Arena)
  {
    && RelationshipOf(arena, Src, SuccessChannel) == Some(Relationship([Trn]))
    && RelationshipOf(arena, Trn, SuccessChannel) == Some(Relationship([Dest]))
  }

  /** An item of the transformer reaches the sink, which does nothing further. */
  lemma TransformerItemReachesSink(arena: Arena, fuel: nat, v: string)
    requires Chained(arena) && fuel >= 1
    ensures Dispatch(arena, ChainStage, fuel, Pull(0, Trn, Item(Emit(SuccessChannel, v)))) == Some([Call(Dest, Some(v))])
  {
    DispatchFollowsRoute(arena, ChainStage, fuel, 0, Trn, SuccessChannel, v, Relationship([Dest]));
    SinkIsOneCall(arena, ChainStage, fuel - 1, Dest, Some(v));
  }

  /** The transformer called with `x` yields one item, which reaches the sink. */
  lemma TransformerRun(arena: Arena, fuel: nat, x: string)
    requires Chained(arena) && fuel >= 1
    ensures Run(arena, ChainStage, fuel, [Trn], Some(x)) == Some([Call(Trn, Some(x)), Call(Dest, Some(x + x))])
  {
    var doubled := [Emit(SuccessChannel, x + x)];
    assert ChainStage(Trn, Some(x)) == Some(doubled);
    SoleGeneratorIsIteration(arena, ChainStage, fuel, Trn, Some(x));
    var sink := Dispatch(arena, ChainStage, fuel, Pull(0, Trn, Item(doubled[0])));
    TransformerItemReachesSink(arena, fuel, x + x);
    assert doubled[1..] == [];
    JoinNothing(sink);
    assert DispatchEach(arena, ChainStage, fuel, Trn, doubled) == sink;
    assert [Call(Trn, Some(x))] + [Call(Dest, Some(x + x))] == [Call(Trn, Some(x)), Call(Dest, Some(x + x))];
  }

  /** An item of the source runs the transformer, whose one item reaches the
      sink before control returns to the source. */
  lemma SourceItemRunsChain(arena: Arena, fuel: nat, x: string)
    requires Chained(arena) && fuel >= 2
    ensures Dispatch(arena, ChainStage, fuel, Pull(0, Src, Item(Emit(SuccessChannel, x)))) ==
      Some([Call(Trn, Some(x)), Call(Dest, Some(x + x))])
  {
    DispatchFollowsRoute(arena, ChainStage, fuel, 0, Src, SuccessChannel, x, Relationship([Trn]));
    TransformerRun(arena, fuel - 1, x);
  }

  /** The calls one source item causes. */
  function Through(x: string): seq<Call<string>>
  {
    [Call(Trn, Some(x)), Call(Dest, Some(x + x))]
  }

  /** The source's three items, dispatched one after the other. */
  lemma SourceItemsRunChain(arena: Arena, fuel: nat)
    requires Chained(arena) && fuel >= 2
    ensures DispatchEach(arena, ChainStage, fuel, Src, ChainStage(Src, None).value) ==
      Some(Through("foo") + (Through("bar") + Through("baz")))
  {
    var items := [Emit(SuccessChannel, "foo"), Emit(SuccessChannel, "bar"), Emit(SuccessChannel, "baz")];
    assert ChainStage(Src, None) == Some(items);
    SourceItemRunsChain(arena, fuel, "foo");
    SourceItemRunsChain(arena, fuel, "bar");
    SourceItemRunsChain(arena, fuel, "baz");
    assert items[2..][1..] == [] && items[2..][0] == items[2];
    assert Through("baz") + [] == Through("baz");
    assert DispatchEach(arena, ChainStage, fuel, Src, items[2..]) == Some(Through("baz"));
    assert items[1..][1..] == items[2..] && items[1..][0] == items[1];
    assert DispatchEach(arena, ChainStage, fuel, Src, items[1..]) == Some(Through("bar") + Through("baz"));
  }

  /** On any arena wired like the example, and with any budget of two nested
      runs or more, each source item travels through the whole chain before
      the next one is pulled. */
  lemma ChainedRunInOrder(arena: Arena, fuel: nat)
    requires Chained(arena) && fuel >= 2
    ensures Run(arena, ChainStage, fuel, [Src], None) ==
      Some([Call(Src, None)] + (Through("foo") + (Through("bar") + Through("baz"))))
  {
    SoleGeneratorIsIteration(arena, ChainStage, fuel, Src, None);
    SourceItemsRunChain(arena, fuel);
  }

  /** The calls of the example run, in order. */
  const ChainTrace: seq<Call<string>> := [
      Call(Src, None),
      Call(Trn, Some("foo")), Call(Dest, Some("foofoo")),
      Call(Trn, Some("bar")), Call(Dest, Some("barbar")),
      Call(Trn, Some("baz")), Call(Dest, Some("bazbaz"))]

  lemma ChainTraceSpelledOut()
    ensures [Call(Src, None)] + (Through("foo") + (Through("bar") + Through("baz"))) == ChainTrace
  {
    assert "foo" + "foo" == "foofoo" && "bar" + "bar" == "barbar" && "baz" + "baz" == "bazbaz";
    Flatten(Call(Src, None), Through("foo"), Through("bar"), Through("baz"));
  }

  lemma Flatten<T>(a: T, foo: seq<T>, bar: seq<T>, baz: seq<T>)
    requires |foo| == 2 && |bar| == 2 && |baz| == 2
    ensures [a] + (foo + (bar + baz)) == [a, foo[0], foo[1], bar[0], bar[1], baz[0], baz[1]]
  {
  }

  /** `src | trn | dest` followed by `run([src])`: the sink receives "foofoo",
      "barbar" and "bazbaz", in that order. */
  lemma ChainRunsInOrder()
    ensures Run(ChainArena(), ChainStage, 2, [Src], None) == Some(ChainTrace)
  {
    ChainWiring();
    ChainedRunInOrder(ChainArena(), 2);
    ChainTraceSpelledOut();
  }

  /** The same chain piped into a pipeline: `pipeline | src` makes `src` the
      only source, and the pipeline's run is the runner's run from `src`. */
  lemma PipelineRunsChain()
    ensures AddSource(NewPipeline(), Src).0.sources == [Src]
    ensures Run(ChainArena(), ChainStage, 2, AddSource(NewPipeline(), Src).0.sources, None) == Some(ChainTrace)
  {
    assert AddSource(NewPipeline(), Src).0.sources == [Src];
    ChainRunsInOrder();
  }

  /** A processor whose only channel is "success", connected to `d` alone. */
  lemma SoleSuccessor(arena: Arena, x: ProcId, d: ProcId)
    requires x in arena && arena[x].channels == map[SuccessChannel := Relationship([d])]
    ensures Successors(arena, x) == {d}
  {
    assert d in arena[x].channels[SuccessChannel].destinations;
  }

  /** An arena wired like the example, with nothing else reachable from `src`. */
  predicate ChainShaped(arena: Arena)
  {
    && Chained(arena) && WellFormed(arena)
    && Src in arena && Trn in arena && Dest in arena
    && Successors(arena, Src) == {Trn}
    && Successors(arena, Trn) == {Dest}
    && Successors(arena, Dest) == {}
  }

  lemma ChainArenaShaped()
    ensures ChainShaped(ChainArena())
  {
    var a := ChainArena();
    ChainArenaIsWellFormed();
    ChainWiring();
    assert [] + [Trn] == [Trn] && [] + [Dest] == [Dest];
    SoleSuccessor(a, Src, Trn);
    SoleSuccessor(a, Trn, Dest);
    assert a[Dest].channels == map[];
  }

  /** Exactly the three processors of the chain are reachable from `src`. */
  lemma ChainReachable(arena: Arena, x: ProcId)
    requires ChainShaped(arena)
    ensures Reachable(arena, [Src], x) <==> x == Src || x == Trn || x == Dest
  {
    SourceIsReachable(arena, [Src], Src);
    ReachStep(arena, [Src], Src, Trn);
    ReachStep(arena, [Src], Trn, Dest);
    if Reachable(arena, [Src], x) {
      var s := {Src, Trn, Dest};
      assert ClosedUnder(arena, s);
      var path :| IsPath(arena, path) && path[0] in [Src] && path[|path| - 1] == x;
      ClosedContainsPath(arena, s, path);
    }
  }

  /** A duplicate-free list of the processors reachable from `src` in a
      chain-shaped arena names the three of them once each. */
  lemma ChainSetUp(arena: Arena, xs: seq<ProcId>)
    requires ChainShaped(arena)
    requires forall x :: x in xs <==> Reachable(arena, [Src], x)
    requires forall i, j :: 0 <= i < j < |xs| ==> xs[i] != xs[j]
    ensures forall x :: x in xs <==> x == Src || x == Trn || x == Dest
    ensures |xs| == 3
  {
    var names: set<ProcId> := {Src, Trn, Dest};
    forall x ensures x in xs <==> x in names {
      ChainReachable(arena, x);
    }
    DistinctCount(xs, names);
  }

  /** The library's pipeline test in full: leaving `with Pipeline() as p:`
      after `p | src | trn | dest` sets up each of the three processors once,
      runs the chain, and tears the same three down once each, with any
      budget of two nested runs or more (`ChainArenaShaped` shows the
      example's arena qualifies). */
  method RunChainPipeline(arena: Arena, fuel: nat) returns (setUp: seq<ProcId>, trace: Trace<string>, tornDown: seq<ProcId>)
    requires ChainShaped(arena) && fuel >= 2
    ensures forall x :: x in setUp <==> x == Src || x == Trn || x == Dest
    ensures |setUp| == 3
    ensures trace == Some(ChainTrace)
    ensures forall x :: x in tornDown <==> x == Src || x == Trn || x == Dest
    ensures |tornDown| == 3
  {
    var pl := AddSource(NewPipeline(), Src).0;
    assert pl.sources == [Src];
    setUp, trace, tornDown := Execute(arena, ChainStage, fuel, pl);
    ChainedRunInOrder(arena, fuel);
    ChainTraceSpelledOut();
    ChainSetUp(arena, setUp);
  }

  lemma ChainTraceSinkInputs()
    ensures InputsOf(ChainTrace, Dest) == [Some("foofoo"), Some("barbar"), Some("bazbaz")]
  {
    var t := ChainTrace;
    assert t[6..][1..] == [];
    assert InputsOf(t[6..], Dest) == [Some("bazbaz")];
    assert t[5..][1..] == t[6..] && t[4..][1..] == t[5..];
    assert InputsOf(t[4..], Dest) == [Some("barbar"), Some("bazbaz")];
    assert t[3..][1..] == t[4..] && t[2..][1..] == t[3..];
    assert InputsOf(t[2..], Dest) == [Some("foofoo"), Some("barbar"), Some("bazbaz")];
    assert t[1..][1..] == t[2..];
  }

  /** The sink's `outs` list from the example: the arguments it was called with. */
  lemma SinkRecordsDoubledItems()
    ensures Run(ChainArena(), ChainStage, 2, [Src], None).Some?
    ensures InputsOf(Run(ChainArena(), ChainStage, 2, [Src], None).value, Dest) ==
      [Some("foofoo"), Some("barbar"), Some("bazbaz")]
  {
    ChainRunsInOrder();
    ChainTraceSinkInputs();
  }

  // ---------------------------------------------------------------------
  // Truthiness of items
  // ---------------------------------------------------------------------

  /** A source that yields `("success", 0)`, a falsy item and `("failure", 1)`. */
  function ZeroStage(p: ProcId, input: Option<int>): Output<int>
  {
    if p == Src && input.None? then Some([Emit(SuccessChannel, 0), Falsy, Emit("failure", 1)])
    else None
  }

  /** `src | dest`: only the success channel of the source is connected. */
  predicate SuccessOnly(arena: Arena)
  {
    && RelationshipOf(arena, Src, SuccessChannel) == Some(Relationship([Dest]))
    && RelationshipOf(arena, Src, "failure") == None
  }

  lemma ZeroItemsDispatch(arena: Arena, fuel: nat)
    requires SuccessOnly(arena) && fuel >= 1
    ensures Dispatch(arena, ZeroStage, fuel, Pull(0, Src, Item(Emit(SuccessChannel, 0)))) == Some([Call(Dest, Some(0))])
    ensures Dispatch(arena, ZeroStage, fuel, Pull(0, Src, Item(Falsy))) == Some([])
    ensures Dispatch(arena, ZeroStage, fuel, Pull(0, Src, Item(Emit("failure", 1)))) == Some([])
  {
    DispatchFollowsRoute(arena, ZeroStage, fuel, 0, Src, SuccessChannel, 0, Relationship([Dest]));
    SinkIsOneCall(arena, ZeroStage, fuel - 1, Dest, Some(0));
  }

  /** The pair `("success", 0)` is truthy, so its zero value is delivered; the
      falsy item and the item for an unconnected channel are dropped. */
  lemma ZeroValueIsDelivered(arena: Arena, fuel: nat)
    requires SuccessOnly(arena) && fuel >= 1
    ensures Run(arena, ZeroStage, fuel, [Src], None) == Some([Call(Src, None), Call(Dest, Some(0))])
  {
    var items := [Emit(SuccessChannel, 0), Falsy, Emit("failure", 1)];
    assert ZeroStage(Src, None) == Some(items);
    SoleGeneratorIsIteration(arena, ZeroStage, fuel, Src, None);
    ZeroItemsDispatch(arena, fuel);
    assert items[2..][1..] == [] && items[2..][0] == items[2];
    assert DispatchEach(arena, ZeroStage, fuel, Src, items[2..]) == Some([]);
    assert items[1..][1..] == items[2..] && items[1..][0] == items[1];
    assert DispatchEach(arena, ZeroStage, fuel, Src, items[1..]) == Some([]);
    assert DispatchEach(arena, ZeroStage, fuel, Src, items) == Some([Call(Dest, Some(0))] + []);
    assert [Call(Src, None)] + ([Call(Dest, Some(0))] + []) == [Call(Src, None), Call(Dest, Some(0))];
  }

  lemma ZeroArenaExample()
    ensures var arena := map[Src := Pipe(NewProcessor(Src, None), Dest).0, Dest := NewProcessor(Dest, None)];
      Run(arena, ZeroStage, 1, [Src], None) == Some([Call(Src, None), Call(Dest, Some(0))])
  {
    var arena := map[Src := Pipe(NewProcessor(Src, None), Dest).0, Dest := NewProcessor(Dest, None)];
    assert SuccessOnly(arena);
    ZeroValueIsDelivered(arena, 1);
  }

  // ---------------------------------------------------------------------
  // A cycle whose items die out
  // ---------------------------------------------------------------------

  /** `src` yields one item when run without argument; every other call is a sink. */
  function CycleStage(p: ProcId, input: Option<int>): Output<int>
  {
    if p == Src && input.None? then Some([Emit(SuccessChannel, 7)]) else None
  }

  /** `src | dest` and `dest | src`: the success channels form a cycle. */
  predicate Cyclic(arena: Arena)
  {
    && RelationshipOf(arena, Src, SuccessChannel) == Some(Relationship([Dest]))
    && RelationshipOf(arena, Dest, SuccessChannel) == Some(Relationship([Src]))
  }

  /** Recursion follows items, not connections: on a cycle, once `dest`
      returns no generator nothing more is dispatched, and the run finishes
      with one nested run to spare. */
  lemma CycleWhoseItemsDieOutFinishes(arena: Arena, fuel: nat)
    requires Cyclic(arena) && fuel >= 1
    ensures Run(arena, CycleStage, fuel, [Src], None) == Some([Call(Src, None), Call(Dest, Some(7))])
  {
    var items := [Emit(SuccessChannel, 7)];
    assert CycleStage(Src, None) == Some(items);
    SoleGeneratorIsIteration(arena, CycleStage, fuel, Src, None);
    DispatchFollowsRoute(arena, CycleStage, fuel, 0, Src, SuccessChannel, 7, Relationship([Dest]));
    SinkIsOneCall(arena, CycleStage, fuel - 1, Dest, Some(7));
    assert items[1..] == [] && items[0] == Emit(SuccessChannel, 7);
    assert DispatchEach(arena, CycleStage, fuel, Src, items) == Some([Call(Dest, Some(7))] + []);
    assert [Call(Src, None)] + ([Call(Dest, Some(7))] + []) == [Call(Src, None), Call(Dest, Some(7))];
  }

  lemma CycleArenaExample()
    ensures var arena := map[Src := Pipe(NewProcessor(Src, None), Dest).0, Dest := Pipe(NewProcessor(Dest, None), Src).0];
      Cyclic(arena) && Run(arena, CycleStage, 1, [Src], None) == Some([Call(Src, None), Call(Dest, Some(7))])
  {
    var arena := map[Src := Pipe(NewProcessor(Src, None), Dest).0, Dest := Pipe(NewProcessor(Dest, None), Src).0];
    assert Cyclic(arena);
    CycleWhoseItemsDieOutFinishes(arena, 1);
  }
}
