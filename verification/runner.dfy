/**
 * `SimpleRunner`: invokes each processor, registers the generators it gets
 * back, pulls them round by round (module Schedule) and dispatches every
 * truthy `(channel, value)` item synchronously to all destinations of the
 * owner's relationship for that channel, draining that nested run completely
 * before the next pull.
 *
 * The observable outcome of a run is its invocation trace: every call of
 * `process`, in order, with its argument. Stages are one abstract function
 * from (processor, optional argument) to either `None` or the finite list
 * of items the generator will yield.
 *
 * Dispatch is plain recursion in Python (`run` calls `_process_next`, which
 * calls `run` for every routed item), and the recursion follows items, not
 * connections: only nesting deeper than the interpreter's recursion limit
 * ends in a RecursionError, as when items keep travelling round a cycle. A
 * cycle or a long chain whose items die out finishes.
 * The model carries a depth budget `fuel` in that limit's place: a run that
 * has generators to drain needs one unit, and its nested runs get one unit
 * less. Running out yields `None`, which stands for the RecursionError; the
 * budget is not tied to the interpreter's limit. With enough fuel the trace
 * does not depend on it (RunFuelMonotone); on an acyclic graph enough fuel
 * always exists (RunCompletes), and on a cycle whose items die out it can
 * too (Scenario.CycleWhoseItemsDieOutFinishes).
 */
module Runner {
  import opened Wrappers
  import opened Components
  import opened Schedule

  /** One item a generator yields. `_process_next` tests the truthiness of the
      whole item, not of its value: any `(channel, value)` pair is truthy, even
      `("success", 0)`, and `Falsy` stands for every falsy item. A truthy item
      is read as `item[0]` (the channel) and, when that channel is connected,
      `item[1]` (the value); `Emit(channel, value)` stands for those two reads,
      so a string or a longer tuple is an `Emit` as well. */
  datatype Emit<V> = Falsy | Emit(channel: string, value: V)

  /** What `process(*args)` returns: `None` (a sink), or a generator over a
      finite list of items. */
  type Output<V> = Option<seq<Emit<V>>>

  /** Every processor's stage: `stages(p, None)` is `p.process()`,
      `stages(p, Some(v))` is `p.process(v)`. */
  type Stages<!V> = (ProcId, Option<V>) -> Output<V>

  /** One call of `process`, with its argument (`None`: no argument). */
  datatype Call<V> = Call(proc: ProcId, input: Option<V>)

  /** A trace, or `None` when the depth budget ran out. */
  type Trace<V> = Option<seq<Call<V>>>

  /** `proc.process(*args)` for every processor of the list, in order. */
  function Invocations<V>(procs: seq<ProcId>, input: Option<V>): seq<Call<V>>
  {
    if |procs| == 0 then [] else [Call(procs[0], input)] + Invocations(procs[1..], input)
  }

  /** One call per processor of the list, in list order, each with the same argument. */
  lemma {:induction false} InvocationsCallEach<V>(procs: seq<ProcId>, input: Option<V>)
    ensures |Invocations(procs, input)| == |procs|
    ensures forall i :: 0 <= i < |procs| ==> Invocations(procs, input)[i] == Call(procs[i], input)
  {
    if |procs| > 0 {
      InvocationsCallEach(procs[1..], input);
      forall i | 0 < i < |procs| ensures Invocations(procs, input)[i] == Call(procs[i], input) {
        assert Invocations(procs, input)[i] == Invocations(procs[1..], input)[i - 1];
      }
    }
  }

  /** The loop at the top of `run`: the generator of every processor whose
      `process` returned one is registered under that processor; a `None`
      result registers nothing.
      Generators are numbered by the position of their processor in the list. */
  function Register<V>(stages: Stages<V>, procs: seq<ProcId>, input: Option<V>, next: nat): seq<Cursor<Emit<V>>>
    decreases |procs|
  {
    if |procs| == 0 then []
    else
      var tail := Register(stages, procs[1..], input, next + 1);
      match stages(procs[0], input)
      case None => tail
      case Some(items) => [Cursor(next, procs[0], items)] + tail
  }

  /** One generator per call, at that call's position: the call at index `i`
      registers generator `next + i` exactly when its `process` returned a
      generator, so a processor listed twice registers two generators. */
  lemma {:induction false} RegisterOnePerCall<V>(stages: Stages<V>, procs: seq<ProcId>, input: Option<V>, next: nat)
    ensures forall i :: 0 <= i < |procs| && stages(procs[i], input).Some? ==>
      Cursor(next + i, procs[i], stages(procs[i], input).value) in Register(stages, procs, input, next)
    ensures forall c :: c in Register(stages, procs, input, next) ==>
      next <= c.gen < next + |procs| && procs[c.gen - next] == c.owner
    decreases |procs|
  {
    if |procs| > 0 {
      RegisterOnePerCall(stages, procs[1..], input, next + 1);
      var all := Register(stages, procs, input, next);
      var tail := Register(stages, procs[1..], input, next + 1);
      assert forall c :: c in tail ==> c in all;
      forall i | 0 < i < |procs| && stages(procs[i], input).Some?
        ensures Cursor(next + i, procs[i], stages(procs[i], input).value) in all
      {
        assert procs[1..][i - 1] == procs[i];
      }
      forall c | c in all ensures next <= c.gen < next + |procs| && procs[c.gen - next] == c.owner {
        if c !in tail {
          assert c == Cursor(next, procs[0], stages(procs[0], input).value);
        } else {
          assert procs[1..][c.gen - (next + 1)] == c.owner;
        }
      }
    }
  }

  /** Every registered generator belongs to a listed processor and holds
      what its `process` returned; a processor gets a generator exactly when
      its `process` did not return `None`; generators stay in call order. */
  lemma {:induction false} RegisterKeepsOwners<V>(stages: Stages<V>, procs: seq<ProcId>, input: Option<V>, next: nat)
    ensures |Register(stages, procs, input, next)| <= |procs|
    ensures Increasing(Register(stages, procs, input, next))
    ensures forall c :: c in Register(stages, procs, input, next) ==>
      c.owner in procs && next <= c.gen && stages(c.owner, input) == Some(c.rest)
    ensures forall p :: p in procs ==>
      (stages(p, input).Some? <==> exists c :: c in Register(stages, procs, input, next) && c.owner == p)
    decreases |procs|
  {
    if |procs| > 0 {
      RegisterKeepsOwners(stages, procs[1..], input, next + 1);
      var tail := Register(stages, procs[1..], input, next + 1);
      forall p | p in procs[1..] ensures p in procs {
      }
      assert procs == [procs[0]] + procs[1..];
    }
  }

  /** Registration keeps exactly the generators: one per call whose `process`
      returned a generator, numbered by the call's position, in call order,
      each holding what that call returned; a call that returned `None`
      registers nothing. */
  lemma RegisterKeepsGenerators<V>(stages: Stages<V>, procs: seq<ProcId>, input: Option<V>, next: nat)
    ensures |Register(stages, procs, input, next)| <= |procs|
    ensures Increasing(Register(stages, procs, input, next))
    ensures forall c :: c in Register(stages, procs, input, next) ==>
      c.owner in procs && next <= c.gen && stages(c.owner, input) == Some(c.rest)
    ensures forall p :: p in procs ==>
      (stages(p, input).Some? <==> exists c :: c in Register(stages, procs, input, next) && c.owner == p)
    ensures forall i :: 0 <= i < |procs| && stages(procs[i], input).Some? ==>
      Cursor(next + i, procs[i], stages(procs[i], input).value) in Register(stages, procs, input, next)
    ensures forall c :: c in Register(stages, procs, input, next) ==>
      next <= c.gen < next + |procs| && procs[c.gen - next] == c.owner
  {
    RegisterKeepsOwners(stages, procs, input, next);
    RegisterOnePerCall(stages, procs, input, next);
  }

  /** Sequencing two traces; a budget overrun in either is an overrun of both. */
  function Join<V>(a: Trace<V>, b: Trace<V>): (r: Trace<V>)
    ensures r.Some? <==> a.Some? && b.Some?
    ensures r.Some? ==> r.value == a.value + b.value
  {
    match a
    case None => None
    case Some(x) =>
      match b
      case None => None
      case Some(y) => Some(x + y)
  }

  /** Following a trace by nothing leaves it as it is. */
  lemma JoinNothing<V>(a: Trace<V>)
    ensures Join(a, Some([])) == a
  {
    if a.Some? {
      assert a.value + [] == a.value;
    }
  }

  /** `SimpleRunner.run(procs, *args)`: invoke every processor, then pull the
      registered generators round by round and dispatch what they yield. */
  function Run<V>(arena: Arena, stages: Stages<V>, fuel: nat, procs: seq<ProcId>, input: Option<V>): (r: Trace<V>)
    decreases fuel, 2, 0
  {
    var cs := Register(stages, procs, input, 0);
    if |cs| == 0 then Some(Invocations(procs, input))
    else if fuel == 0 then None
    else Join(Some(Invocations(procs, input)), DispatchRounds(arena, stages, fuel, Rounds(cs)))
  }

  /** The dispatches of successive rounds, one round after the other. */
  function DispatchRounds<V>(arena: Arena, stages: Stages<V>, fuel: nat, rounds: seq<seq<Pull<Emit<V>>>>): Trace<V>
    requires fuel > 0
    decreases fuel, 1, |rounds|
  {
    if |rounds| == 0 then Some([])
    else Join(DispatchPulls(arena, stages, fuel, rounds[0]), DispatchRounds(arena, stages, fuel, rounds[1..]))
  }

  /** The dispatches of one round, in pull order; each nested run is complete
      before the next pull's dispatch begins. */
  function DispatchPulls<V>(arena: Arena, stages: Stages<V>, fuel: nat, pulls: seq<Pull<Emit<V>>>): Trace<V>
    requires fuel > 0
    decreases fuel, 0, |pulls| + 1
  {
    if |pulls| == 0 then Some([])
    else Join(Dispatch(arena, stages, fuel, pulls[0]), DispatchPulls(arena, stages, fuel, pulls[1..]))
  }

  /** A pull that reaches destinations: a truthy item whose channel the owner
      has a relationship for. */
  predicate Routed<V>(arena: Arena, p: Pull<Emit<V>>)
  {
    p.result.Item? && p.result.item.Emit? && RelationshipOf(arena, p.owner, p.result.item.channel).Some?
  }

  /** The destinations a routed pull reaches. */
  function RouteOf<V>(arena: Arena, p: Pull<Emit<V>>): seq<ProcId>
    requires Routed(arena, p)
  {
    RelationshipOf(arena, p.owner, p.result.item.channel).value.destinations
  }

  /** What `_process_next` does with one pulled item: StopIteration, a falsy
      item and a channel without a relationship dispatch nothing; otherwise
      a nested run of the relationship's destinations with the value, one level deeper. */
  function Dispatch<V>(arena: Arena, stages: Stages<V>, fuel: nat, p: Pull<Emit<V>>): (r: Trace<V>)
    requires fuel > 0
    decreases fuel, 0, 0
  {
    if Routed(arena, p) then Run(arena, stages, fuel - 1, RouteOf(arena, p), Some(p.result.item.value))
    else Some([])
  }

  /** An item `(channel, value)` whose owner has a relationship for `channel`
      runs that relationship's destinations with `value`, one level deeper;
      which generator yielded it does not matter. */
  lemma DispatchFollowsRoute<V>(arena: Arena, stages: Stages<V>, fuel: nat, gen: nat, owner: ProcId, channel: string, value: V, rel: Relationship)
    requires fuel > 0
    requires RelationshipOf(arena, owner, channel) == Some(rel)
    ensures Dispatch(arena, stages, fuel, Pull(gen, owner, Item(Emit(channel, value)))) ==
      Run(arena, stages, fuel - 1, rel.destinations, Some(value))
  {
  }

  /** A run first calls `process` on every processor of its list, in list
      order, duplicates included, with the run's argument; its trace starts
      with exactly those calls. */
  lemma RunInvokesInOrder<V>(arena: Arena, stages: Stages<V>, fuel: nat, procs: seq<ProcId>, input: Option<V>)
    ensures Run(arena, stages, fuel, procs, input).Some? ==>
      |Run(arena, stages, fuel, procs, input).value| >= |procs| &&
      Run(arena, stages, fuel, procs, input).value[..|procs|] == Invocations(procs, input)
  {
    InvocationsCallEach(procs, input);
  }

  /** What one pulled item causes: nothing at all unless it is a truthy pair
      whose channel the owner has a non-empty relationship for; in that case
      the nested run begins by invoking every destination of that
      relationship with the value, in connection order, once per occurrence. */
  lemma DispatchReachesDestinations<V>(arena: Arena, stages: Stages<V>, fuel: nat, p: Pull<Emit<V>>)
    requires fuel > 0
    ensures !Routed(arena, p) ==> Dispatch(arena, stages, fuel, p) == Some([])
    ensures Dispatch(arena, stages, fuel, p).Some? && |Dispatch(arena, stages, fuel, p).value| > 0 ==>
      Routed(arena, p) && |RouteOf(arena, p)| > 0
    ensures Routed(arena, p) && Dispatch(arena, stages, fuel, p).Some? ==>
      |Dispatch(arena, stages, fuel, p).value| >= |RouteOf(arena, p)| &&
      Dispatch(arena, stages, fuel, p).value[..|RouteOf(arena, p)|] == Invocations(RouteOf(arena, p), Some(p.result.item.value))
  {
    if Routed(arena, p) {
      RunInvokesInOrder(arena, stages, fuel - 1, RouteOf(arena, p), Some(p.result.item.value));
    }
  }

  /** A relationship without destinations swallows the value: `run([], value)`
      registers nothing and invokes nothing. */
  lemma EmptyRelationshipInvokesNothing<V>(arena: Arena, stages: Stages<V>, fuel: nat, p: Pull<Emit<V>>)
    requires fuel > 0
    requires Routed(arena, p) && |RouteOf(arena, p)| == 0
    ensures Dispatch(arena, stages, fuel, p) == Some([])
  {
  }

  // ---------------------------------------------------------------------
  // A single processor
  // ---------------------------------------------------------------------

  /** The dispatches of a generator's items, one after the other. */
  function DispatchEach<V>(arena: Arena, stages: Stages<V>, fuel: nat, owner: ProcId, items: seq<Emit<V>>): Trace<V>
    requires fuel > 0
    decreases |items|
  {
    if |items| == 0 then Some([])
    else Join(Dispatch(arena, stages, fuel, Pull(0, owner, Item(items[0]))), DispatchEach(arena, stages, fuel, owner, items[1..]))
  }

  /** Pulling a lone generator round by round is plain iteration over its items. */
  lemma {:induction false} LoneCursorIterates<V>(arena: Arena, stages: Stages<V>, fuel: nat, c: Cursor<Emit<V>>)
    requires fuel > 0
    ensures DispatchRounds(arena, stages, fuel, Rounds([c])) == DispatchEach(arena, stages, fuel, c.owner, c.rest)
    decreases |c.rest|
  {
    var rounds := Rounds([c]);
    assert RoundPulls([c]) == [PullOf(c)];
    assert rounds[1..] == Rounds(Step([c]));
    if |c.rest| == 0 {
      assert Step([c]) == [];
      assert DispatchPulls(arena, stages, fuel, [PullOf(c)]) == Some([]);
    } else {
      assert Step([c]) == [Advance(c)];
      LoneCursorIterates(arena, stages, fuel, Advance(c));
      var first := Pull(0, c.owner, Item(c.rest[0]));
      assert Routed(arena, PullOf(c)) == Routed(arena, first);
      assert Dispatch(arena, stages, fuel, PullOf(c)) == Dispatch(arena, stages, fuel, first);
      assert DispatchPulls(arena, stages, fuel, [PullOf(c)]) == Dispatch(arena, stages, fuel, first) by {
        assert [PullOf(c)][1..] == [];
        JoinNothing(Dispatch(arena, stages, fuel, first));
      }
    }
  }

  /** Running one processor whose `process` returns a generator calls it once
      and then dispatches its items in order, each nested run drained before
      the next item is pulled. */
  lemma SoleGeneratorIsIteration<V>(arena: Arena, stages: Stages<V>, fuel: nat, p: ProcId, input: Option<V>)
    requires fuel > 0 && stages(p, input).Some?
    ensures Run(arena, stages, fuel, [p], input) ==
      Join(Some([Call(p, input)]), DispatchEach(arena, stages, fuel, p, stages(p, input).value))
  {
    var c := Cursor(0, p, stages(p, input).value);
    assert Register(stages, [p], input, 0) == [c] by {
      assert [p][1..] == [];
    }
    assert Invocations([p], input) == [Call(p, input)];
    LoneCursorIterates(arena, stages, fuel, c);
  }

  /** Running one processor whose `process` returns `None` calls it once and
      does nothing else, whatever the budget. */
  lemma SinkIsOneCall<V>(arena: Arena, stages: Stages<V>, fuel: nat, p: ProcId, input: Option<V>)
    requires stages(p, input).None?
    ensures Run(arena, stages, fuel, [p], input) == Some([Call(p, input)])
  {
    assert Register(stages, [p], input, 0) == [] by {
      assert [p][1..] == [];
    }
    assert Invocations([p], input) == [Call(p, input)];
  }

  // ---------------------------------------------------------------------
  // The depth budget does not change a completed trace
  // ---------------------------------------------------------------------

  lemma {:induction false} RunFuelMonotone<V>(arena: Arena, stages: Stages<V>, fuel: nat, more: nat, procs: seq<ProcId>, input: Option<V>)
    requires fuel <= more
    requires Run(arena, stages, fuel, procs, input).Some?
    ensures Run(arena, stages, more, procs, input) == Run(arena, stages, fuel, procs, input)
    decreases fuel, 2, 0
  {
    var cs := Register(stages, procs, input, 0);
    if |cs| > 0 {
      RoundsFuelMonotone(arena, stages, fuel, more, Rounds(cs));
    }
  }

  lemma {:induction false} RoundsFuelMonotone<V>(arena: Arena, stages: Stages<V>, fuel: nat, more: nat, rounds: seq<seq<Pull<Emit<V>>>>)
    requires 0 < fuel <= more
    requires DispatchRounds(arena, stages, fuel, rounds).Some?
    ensures DispatchRounds(arena, stages, more, rounds) == DispatchRounds(arena, stages, fuel, rounds)
    decreases fuel, 1, |rounds|
  {
    if |rounds| > 0 {
      PullsFuelMonotone(arena, stages, fuel, more, rounds[0]);
      RoundsFuelMonotone(arena, stages, fuel, more, rounds[1..]);
    }
  }

  lemma {:induction false} PullsFuelMonotone<V>(arena: Arena, stages: Stages<V>, fuel: nat, more: nat, pulls: seq<Pull<Emit<V>>>)
    requires 0 < fuel <= more
    requires DispatchPulls(arena, stages, fuel, pulls).Some?
    ensures DispatchPulls(arena, stages, more, pulls) == DispatchPulls(arena, stages, fuel, pulls)
    decreases fuel, 0, |pulls| + 1
  {
    if |pulls| > 0 {
      DispatchFuelMonotone(arena, stages, fuel, more, pulls[0]);
      PullsFuelMonotone(arena, stages, fuel, more, pulls[1..]);
    }
  }

  lemma {:induction false} DispatchFuelMonotone<V>(arena: Arena, stages: Stages<V>, fuel: nat, more: nat, p: Pull<Emit<V>>)
    requires 0 < fuel <= more
    requires Dispatch(arena, stages, fuel, p).Some?
    ensures Dispatch(arena, stages, more, p) == Dispatch(arena, stages, fuel, p)
    decreases fuel, 0, 0
  {
    if Routed(arena, p) {
      RunFuelMonotone(arena, stages, fuel - 1, more - 1, RouteOf(arena, p), Some(p.result.item.value));
    }
  }

  // ---------------------------------------------------------------------
  // Acyclic graphs always complete
  // ---------------------------------------------------------------------

  /** A rank that strictly decreases along every connection: the graph has no cycle. */
  predicate Ranked(arena: Arena, rank: map<ProcId, nat>)
  {
    forall x, y :: x in arena && y in Successors(arena, x) ==> x in rank && y in rank && rank[y] < rank[x]
  }

  /** Every pull of `rounds` comes from a processor ranked below `fuel`. */
  ghost predicate OwnersBelow<T>(rounds: seq<seq<Pull<T>>>, rank: map<ProcId, nat>, fuel: nat)
  {
    forall k, i :: 0 <= k < |rounds| && 0 <= i < |rounds[k]| ==> rounds[k][i].owner in rank && rank[rounds[k][i].owner] < fuel
  }

  /** On an acyclic graph the runner finishes: a budget above the rank of
      every processor it starts from is never exhausted. */
  lemma {:induction false} RunCompletes<V>(arena: Arena, stages: Stages<V>, rank: map<ProcId, nat>, fuel: nat, procs: seq<ProcId>, input: Option<V>)
    requires Ranked(arena, rank)
    requires forall p :: p in procs ==> p in rank && rank[p] < fuel
    ensures Run(arena, stages, fuel, procs, input).Some?
    decreases fuel, 2, 0
  {
    var cs := Register(stages, procs, input, 0);
    RegisterKeepsOwners(stages, procs, input, 0);
    if |cs| > 0 {
      assert cs[0] in cs;
      RoundsOwners(cs);
      assert OwnersBelow(Rounds(cs), rank, fuel) by {
        forall k, i | 0 <= k < |Rounds(cs)| && 0 <= i < |Rounds(cs)[k]|
          ensures Rounds(cs)[k][i].owner in rank && rank[Rounds(cs)[k][i].owner] < fuel
        {
          var o := Rounds(cs)[k][i].owner;
          assert o in CursorOwners(cs);
          var c :| c in cs && c.owner == o;
        }
      }
      RoundsComplete(arena, stages, rank, fuel, Rounds(cs));
    }
  }

  lemma {:induction false} RoundsComplete<V>(arena: Arena, stages: Stages<V>, rank: map<ProcId, nat>, fuel: nat, rounds: seq<seq<Pull<Emit<V>>>>)
    requires fuel > 0 && Ranked(arena, rank)
    requires OwnersBelow(rounds, rank, fuel)
    ensures DispatchRounds(arena, stages, fuel, rounds).Some?
    decreases fuel, 1, |rounds|
  {
    if |rounds| > 0 {
      PullsComplete(arena, stages, rank, fuel, rounds[0]);
      assert OwnersBelow(rounds[1..], rank, fuel) by {
        forall k, i | 0 <= k < |rounds[1..]| && 0 <= i < |rounds[1..][k]|
          ensures rounds[1..][k][i].owner in rank && rank[rounds[1..][k][i].owner] < fuel
        {
          assert rounds[1..][k] == rounds[k + 1];
        }
      }
      RoundsComplete(arena, stages, rank, fuel, rounds[1..]);
    }
  }

  lemma {:induction false} PullsComplete<V>(arena: Arena, stages: Stages<V>, rank: map<ProcId, nat>, fuel: nat, pulls: seq<Pull<Emit<V>>>)
    requires fuel > 0 && Ranked(arena, rank)
    requires forall i :: 0 <= i < |pulls| ==> pulls[i].owner in rank && rank[pulls[i].owner] < fuel
    ensures DispatchPulls(arena, stages, fuel, pulls).Some?
    decreases fuel, 0, |pulls| + 1
  {
    if |pulls| > 0 {
      DispatchCompletes(arena, stages, rank, fuel, pulls[0]);
      PullsComplete(arena, stages, rank, fuel, pulls[1..]);
    }
  }

  lemma {:induction false} DispatchCompletes<V>(arena: Arena, stages: Stages<V>, rank: map<ProcId, nat>, fuel: nat, p: Pull<Emit<V>>)
    requires fuel > 0 && Ranked(arena, rank)
    requires p.owner in rank && rank[p.owner] < fuel
    ensures Dispatch(arena, stages, fuel, p).Some?
    decreases fuel, 0, 0
  {
    if Routed(arena, p) {
      var dests := RouteOf(arena, p);
      forall d | d in dests ensures d in rank && rank[d] < fuel - 1 {
        DestinationIsSuccessor(arena, p.owner, p.result.item.channel, d);
      }
      RunCompletes(arena, stages, rank, fuel - 1, dests, Some(p.result.item.value));
    }
  }

  // ---------------------------------------------------------------------
  // A run only reaches processors connected to where it started
  // ---------------------------------------------------------------------

  /** `s` contains every destination of every processor in it. */
  ghost predicate ClosedUnder(arena: Arena, s: set<ProcId>)
  {
    forall x, y :: x in s && y in Successors(arena, x) ==> y in s
  }

  /** Every processor a (completed) trace invokes lies in `s`. */
  ghost predicate Within<V>(t: Trace<V>, s: set<ProcId>)
  {
    t.Some? ==> forall c :: c in t.value ==> c.proc in s
  }

  lemma JoinWithin<V>(a: Trace<V>, b: Trace<V>, s: set<ProcId>)
    requires Within(a, s) && Within(b, s)
    ensures Within(Join(a, b), s)
  {
  }

  /** Every processor a run invokes lies in any connection-closed set that
      contains the processors it started from. */
  lemma {:induction false} RunStaysInside<V>(arena: Arena, stages: Stages<V>, s: set<ProcId>, fuel: nat, procs: seq<ProcId>, input: Option<V>)
    requires ClosedUnder(arena, s)
    requires forall p :: p in procs ==> p in s
    ensures Within(Run(arena, stages, fuel, procs, input), s)
    decreases fuel, 2, 0
  {
    var cs := Register(stages, procs, input, 0);
    RegisterKeepsOwners(stages, procs, input, 0);
    InvocationsCallEach(procs, input);
    assert Within(Some(Invocations(procs, input)), s);
    if |cs| > 0 && fuel > 0 {
      RoundsOwners(cs);
      forall k, i | 0 <= k < |Rounds(cs)| && 0 <= i < |Rounds(cs)[k]|
        ensures Rounds(cs)[k][i].owner in s
      {
        var o := Rounds(cs)[k][i].owner;
        assert o in CursorOwners(cs);
        var c :| c in cs && c.owner == o;
      }
      RoundsStayInside(arena, stages, s, fuel, Rounds(cs));
      JoinWithin(Some(Invocations(procs, input)), DispatchRounds(arena, stages, fuel, Rounds(cs)), s);
    }
  }

  lemma {:induction false} RoundsStayInside<V>(arena: Arena, stages: Stages<V>, s: set<ProcId>, fuel: nat, rounds: seq<seq<Pull<Emit<V>>>>)
    requires fuel > 0 && ClosedUnder(arena, s)
    requires forall k, i :: 0 <= k < |rounds| && 0 <= i < |rounds[k]| ==> rounds[k][i].owner in s
    ensures Within(DispatchRounds(arena, stages, fuel, rounds), s)
    decreases fuel, 1, |rounds|
  {
    if |rounds| > 0 {
      PullsStayInside(arena, stages, s, fuel, rounds[0]);
      forall k, i | 0 <= k < |rounds[1..]| && 0 <= i < |rounds[1..][k]| ensures rounds[1..][k][i].owner in s {
        assert rounds[1..][k] == rounds[k + 1];
      }
      RoundsStayInside(arena, stages, s, fuel, rounds[1..]);
      JoinWithin(DispatchPulls(arena, stages, fuel, rounds[0]), DispatchRounds(arena, stages, fuel, rounds[1..]), s);
    }
  }

  lemma {:induction false} PullsStayInside<V>(arena: Arena, stages: Stages<V>, s: set<ProcId>, fuel: nat, pulls: seq<Pull<Emit<V>>>)
    requires fuel > 0 && ClosedUnder(arena, s)
    requires forall i :: 0 <= i < |pulls| ==> pulls[i].owner in s
    ensures Within(DispatchPulls(arena, stages, fuel, pulls), s)
    decreases fuel, 0, |pulls| + 1
  {
    if |pulls| > 0 {
      DispatchStaysInside(arena, stages, s, fuel, pulls[0]);
      PullsStayInside(arena, stages, s, fuel, pulls[1..]);
      JoinWithin(Dispatch(arena, stages, fuel, pulls[0]), DispatchPulls(arena, stages, fuel, pulls[1..]), s);
    }
  }

  /** The destinations of a routed pull from inside a closed set are inside it. */
  lemma RouteStaysInside<V>(arena: Arena, s: set<ProcId>, p: Pull<Emit<V>>)
    requires ClosedUnder(arena, s) && p.owner in s && Routed(arena, p)
    ensures forall d :: d in RouteOf(arena, p) ==> d in s
  {
    var ch := p.result.item.channel;
    forall d | d in RouteOf(arena, p) ensures d in s {
      DestinationIsSuccessor(arena, p.owner, ch, d);
    }
  }

  lemma {:induction false} DispatchStaysInside<V>(arena: Arena, stages: Stages<V>, s: set<ProcId>, fuel: nat, p: Pull<Emit<V>>)
    requires fuel > 0 && ClosedUnder(arena, s)
    requires p.owner in s
    ensures Within(Dispatch(arena, stages, fuel, p), s)
    decreases fuel, 0, 0
  {
    if Routed(arena, p) {
      RouteStaysInside(arena, s, p);
      RunStaysInside(arena, stages, s, fuel - 1, RouteOf(arena, p), Some(p.result.item.value));
    }
  }

}
