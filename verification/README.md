# pypes dataflow engine in Dafny

A model of the core of `pypes`, a small library for lightweight ETL
pipelines. The model covers two parts, and proves properties of both.

**Graph assembly.**
- Relationships are ordered destination lists.
- Processors own named output relationships: `>>` gets or creates one, and `|` connects into "success".
- Funnels do fan-in.
- A pipeline collects its sources.
- The pipeline's graph is the set of processors reachable from those sources.

**Execution by `SimpleRunner`.**
- The runner calls every processor and registers the generators it gets back.
- It pulls each registered generator once per round, in registration order, and drops exhausted generators after the round.
- It dispatches every truthy `(channel, value)` item to all destinations of the owner's relationship for that channel, one nested run at a time.
- Each nested run finishes before the next pull.

Modules, one file each:

- `wrappers.dfy`, module `Wrappers`: `Option`.
- `components.dfy`, module `Components`:
  - `Relationship`, `Processor` and the funnel.
  - Processors live in an arena (`map<ProcId, Processor>`), because the Python objects refer to each other by reference.
  - A relationship owned by a processor is addressed as `RelRef(owner, channel)`.
- `schedule.dfy`, module `Schedule`:
  - The round-by-round pulling of `SimpleRunner`, over cursors.
  - A cursor is a generator's registration number, its owner, and the items it has left.
  - `Schedule.PullOf` is one `next(gen)` (pypes/components.py:204-208), `Schedule.RoundPulls` one pass of `_process_next` over the dictionary (pypes/components.py:203-208), `Schedule.Step` its removal of exhausted generators (pypes/components.py:217-218), and `Schedule.Rounds` the `while` loop of `run` (pypes/components.py:196-197).
- `runner.dfy`, module `Runner`:
  - `SimpleRunner.run` and `_process_next` as a pure function. It returns the trace of `process` calls, each with its argument.
  - `Runner.Run` is `run` (pypes/components.py:189-197), `Runner.Invocations` and `Runner.Register` its loop over `procs` (pypes/components.py:190-194), and `Runner.Dispatch` the routing of one pulled item (pypes/components.py:210-215). `Runner.DispatchRounds` and `Runner.DispatchEach` sequence those dispatches.
  - Stages are one abstract function. It maps a processor and an optional argument to either `None` (a sink) or the finite list of items its generator yields.
  - A falsy item is `Falsy`. Any `(channel, value)` pair is truthy, even when the value is 0.
  - Dispatch is plain recursion in Python that follows items, not connections. Only nesting deeper than the interpreter's recursion limit ends in a RecursionError, for example when items keep travelling round a cycle; a cycle or a long chain whose items die out finishes.
  - Runs carry a nested-depth budget (`fuel`) in that limit's place; running out gives `None`, which stands for the RecursionError. Given enough fuel the model finishes wherever Python does.
  - `RunFuelMonotone` shows the budget never changes a completed trace. `RunCompletes` shows an acyclic graph always has enough, and `Scenario.CycleWhoseItemsDieOutFinishes` shows a cycle whose items die out finishing.
- `pipelines.dfy`, module `Pipelines`:
  - `Pipeline.__or__`, the graph `_get_graph` builds (a worklist method here; a recursive walk in Python), `setup`, `teardown`, and leaving the `with` block.
  - Also the node dictionary as the library actually writes it (see Findings).
- `scenario.dfy`, module `Scenario`: the library's own chain example `src | trn | dest`, and an example of item truthiness.

The Python runner pulls and dispatches in one interleaved loop. The model does this in three steps:
1. It computes the rounds of pulls up front (`Schedule.Rounds`).
2. It then dispatches them in order (`Runner.DispatchRounds`).
3. Each nested run it starts has its own generator dictionary, as in Python.

Pulling a generator has no effect in the model, because stage outputs are fixed. So both orders produce the same calls in the same order.

## Model

| member | source | states |
|---|---|---|
| Components.NewRelationship | pypes/components.py:95-96 | a fresh relationship has no destinations, so it discards whatever is sent to it |
| Components.Connect | pypes/components.py:101-103 | `rel \| d` returns `d`, grows the list by exactly one, keeps every earlier destination in place and puts `d` last |
| Components.ConnectCountsEveryConnection | pypes/components.py:101-103 | connecting never deduplicates: `d` occurs once more than before even if already present, and every other destination's count is unchanged |
| Components.IterationFollowsConnectionOrder | pypes/components.py:98-103 | iterating after connecting d1..dn yields the old destinations followed by exactly d1..dn, in connection order |
| Components.FreshRelationshipIteratesConnections | pypes/components.py:95-103 | a fresh relationship connected to d1..dn iterates exactly d1..dn |
| Components.NewProcessor | pypes/components.py:21-28 | a new processor has no relationships; its name is the given name if that is present and non-empty, otherwise its id |
| Components.Channel | pypes/components.py:49-57 | `proc >> name` returns the relationship stored under `name`, creating an empty one exactly when absent; it adds only that key, leaves every other relationship and the identity alone, and changes nothing if the name existed |
| Components.ChannelIdempotent | pypes/components.py:49-57 | asking for the same channel a second time returns the same relationship and leaves the processor as the first call left it |
| Components.Pipe | pypes/components.py:42-47 | `proc \| other` returns `other`, appends it to the "success" destinations (created if absent), adds no key but "success" and keeps every other channel |
| Components.PipeIsSuccessChannelThenConnect | pypes/components.py:42-57 | `p \| other` equals `(p >> "success") \| other` |
| Components.ConnectInput | pypes/components.py:126-127 | connecting one funnel input adds or removes no processor and changes no identity or name |
| Components.ConnectInputEffect | pypes/components.py:126-127 | one funnel input appends `d` to its own relationship (a processor input to its "success" relationship, created if absent); every other relationship keeps its destinations and its presence |
| Components.FunnelInto | pypes/components.py:122-128 | `Funnel(...) \| d` returns `d` and adds or removes no processor |
| Components.FunnelConnectsInput | pypes/components.py:122-128 | after the funnel, a relationship's destinations are the earlier ones followed by `d` once per input naming it; it exists exactly when it existed before or some input names it |
| Components.FunnelConnectsEveryInput | pypes/components.py:122-128 | the closed form holds for every relationship at once; relationships no input names are unchanged in destinations and presence |
| Components.FunnelDoesNotDedup | pypes/components.py:122-128 | funnelling the same processor twice into `d` connects `d` twice |
| Components.FunnelKeepsWellFormed | pypes/components.py:122-128 | wiring into an existing processor keeps every destination an existing processor |
| Schedule.PullOf | pypes/components.py:204-208 | `next(gen)` raises StopIteration exactly when the generator has nothing left, and otherwise yields its next item |
| Schedule.Step | pypes/components.py:217-218 | after a round, the items left to pull drop by exactly one per generator pulled |
| Schedule.StepSurvivors | pypes/components.py:202-218 | the generators kept after a round are exactly those that yielded an item, each advanced by one |
| Schedule.StepKeepsOrder | pypes/components.py:217-218 | survivors keep their relative registration order; the generators left are exactly those that yielded; no new owner appears |
| Schedule.RoundPullsEach | pypes/components.py:203-208 | a round pulls every live generator exactly once, in dictionary order |
| Schedule.RoundPullsGens | pypes/components.py:203-208 | the generators pulled in a round are the live ones, and those that yielded are the ones with items left |
| Schedule.RoundsLength | pypes/components.py:196-197 | the loop runs one round per pull of the longest generator (its items plus the StopIteration), and runs no round exactly when no generator was registered |
| Schedule.RoundsShape | pypes/components.py:196-218 | every round is non-empty and in registration order; the first round pulls every registered generator, each later round pulls exactly those that yielded in the round before, and the last round yields nothing |
| Schedule.PulledToExhaustion | pypes/components.py:196-208 | a registered generator with n items is pulled n + 1 times over the run: its items in order, then StopIteration |
| Schedule.RoundsOwners | pypes/components.py:203-213 | every pull of every round comes from a registered generator's processor |
| Runner.InvocationsCallEach | pypes/components.py:191-192 | `process` is called once per listed processor, in list order, duplicates included, each with the run's argument |
| Runner.RegisterKeepsGenerators | pypes/components.py:190-194 | each call whose `process` returned a generator registers one, numbered by the call's position (so a processor listed twice registers two), holding what that call returned; a call that returned `None` registers nothing; generators are kept in call order |
| Runner.RegisterOnePerCall | pypes/components.py:190-194 | the call at position i registers generator i whenever its `process` returned a generator, holding that output; every generator is numbered by the position of a call to its owner, so `run([p, p])` registers two |
| Runner.RunInvokesInOrder | pypes/components.py:189-194 | a completed run's trace starts with one call per listed processor, in list order, with the run's argument |
| Runner.DispatchReachesDestinations | pypes/components.py:210-215 | StopIteration, a falsy item or a channel without a relationship dispatch nothing; a dispatch that calls anything was a routed item with a non-empty relationship, and its nested run begins by invoking every destination in connection order, duplicates repeated |
| Runner.EmptyRelationshipInvokesNothing | pypes/components.py:212-215 | an item sent to an existing relationship without destinations invokes nothing |
| Runner.LoneCursorIterates | pypes/components.py:196-218 | pulling a single generator round by round dispatches its items one after the other, to completion |
| Runner.SoleGeneratorIsIteration | pypes/components.py:189-218 | running one generating processor calls it once, then dispatches its items in order, each nested run drained before the next pull |
| Runner.SinkIsOneCall | pypes/components.py:189-197 | running a processor whose `process` returns `None` calls it once and nothing else, whatever the budget |
| Runner.RunFuelMonotone | pypes/components.py:189-218 | once a run completes with some budget, any larger budget gives the same trace |
| Runner.RunCompletes | pypes/components.py:189-218 | on a graph with a rank that drops along every connection, a budget above the ranks of the listed processors completes the run |
| Runner.RunStaysInside | pypes/components.py:189-215 | every processor a run invokes lies in any connection-closed set containing the listed processors |
| Pipelines.NewPipeline | pypes/components.py:238-240 | a new pipeline has no sources |
| Pipelines.AddSource | pypes/components.py:250-252 | `pipeline \| other` returns `other` and makes it the last source, keeping the earlier ones |
| Pipelines.SourcesKeepPipingOrder | pypes/components.py:250-252 | the sources are exactly the processors piped in, in piping order, repetitions included |
| Pipelines.SourcesRunFirst | pypes/components.py:245-252 | running a pipeline starts by calling `process()` without argument on each source, in piping order |
| Pipelines.NodeOf | pypes/components.py:260-263 | a node holds its processor and, under every channel of the processor and no other key, that channel's destinations |
| Pipelines.ReachStep | pypes/components.py:262-265 | a destination of a processor the walk adds is also added |
| Pipelines.BuildGraph | pypes/components.py:254-270 | the graph has a node exactly for each processor reachable from the sources, cycles and shared destinations included, and each node is that processor's node |
| Pipelines.GraphIsClosed | pypes/components.py:262-268 | the graph's processors contain every destination of every processor in it |
| Pipelines.VisitNodes | pypes/components.py:276-277 | visiting the graph's nodes calls the hook of every processor of the graph exactly once and of no other |
| Pipelines.Setup | pypes/components.py:272-277 | `setup()` is called exactly once on each processor reachable from the sources, however many relationships point to it, and on no other |
| Pipelines.Teardown | pypes/components.py:279-284 | `teardown()` is called exactly once on each processor of the stored graph and on no other |
| Pipelines.Execute | pypes/components.py:245-248 | leaving the block sets up every reachable processor, each of them once, and runs the sources without argument; when the run completes it tears down exactly the processors set up, each of them once, and when the run fails (the RecursionError) nothing is torn down; every processor the run invokes was set up |
| Pipelines.ProcChannelBreaksHooks | pypes/components.py:258-263 | as written, the hook target under "proc" is the processor exactly when it has no channel called "proc"; the other keys are the channels with their destinations |
| Pipelines.ProcChannelCounterexample | pypes/components.py:261-263 | a fresh processor given a "proc" channel has a node whose "proc" slot holds a list, not the processor |
| Scenario.ChainWiring | tests/unit/test_components.py:158-162 | `src \| trn \| dest` connects the success channel of src to trn and of trn to dest, and gives dest none |
| Scenario.ChainedRunInOrder | tests/unit/test_components.py:153-167 | on any arena wired like the example and any budget of two or more, each source item goes through trn and reaches dest before the next is pulled |
| Scenario.ChainRunsInOrder | tests/unit/test_components.py:153-167 | the example run calls src, then trn("foo"), dest("foofoo"), trn("bar"), dest("barbar"), trn("baz"), dest("bazbaz") |
| Scenario.SinkRecordsDoubledItems | tests/unit/test_components.py:156-167 | the sink receives "foofoo", "barbar" and "bazbaz", in that order |
| Scenario.PipelineRunsChain | tests/unit/test_components.py:169-181 | piping src into a pipeline makes it the only source, and the pipeline's run is the chain's run |
| Scenario.RunChainPipeline | tests/unit/test_components.py:169-181 | leaving the pipeline block after `p \| src \| trn \| dest` sets up src, trn and dest once each, runs the seven calls of the chain, from src() to dest("bazbaz"), and tears the same three down once each |
| Scenario.CycleWhoseItemsDieOutFinishes | pypes/components.py:189-215 | on `src \| dest` with `dest \| src`, where only src's first call yields an item, the run with any budget of one or more calls src() and dest(7) and finishes: the recursion follows items, not connections |
| Scenario.ZeroItemsDispatch | pypes/components.py:212-215 | `("success", 0)` is dispatched; a falsy item and an item for an unconnected channel are dropped |
| Scenario.ZeroValueIsDelivered | pypes/components.py:210-215 | a source yielding `("success", 0)`, a falsy item and `("failure", 1)` delivers exactly the 0 to its success destination |

## Left out

- Identity: `uuid4` ids are abstract strings, assumed distinct per processor. Each processor lives in the arena under its own id (`WellFormed`).
- Callable wrapping and dynamic dispatch:
  - `CallableProcFn`, the `ProcFn` and `Runner` base classes and the `callable(fn)` test are Python dynamic dispatch.
  - Every processor's `process` is one abstract `Stages` function.
  - A call with the wrong number of arguments (a `TypeError`) is not modelled.
- Effects of hooks and stages:
  - What a stage's `setup`/`teardown` hooks do is not modelled: `Setup` and `Teardown` return the list of processors whose hook runs.
  - Side effects inside stages are not modelled, except through the trace of calls and their arguments.
- Exceptions raised by stages are not modelled. `Pipeline.__exit__` has no `try`/`finally`, so an error in the run skips teardown; `Pipelines.Execute` models that only for the RecursionError, its one modelled error.
- Runner.Register: `run` keys its dictionary by the generator object, and the model assumes each `process` call returns a new generator, as generator functions and `lambda: iter([...])` do. If two calls returned the same iterator object, Python would register it once, under the owner of the later call, and pull it once per round; the model instead registers one cursor per call, numbered by position (`Runner.RegisterOnePerCall`).
- Context managers:
  - `Processor.__enter__`/`__exit__` are left out.
  - The latter lacks the exception parameters Python passes.
- Lazy and infinite generators: outputs are finite lists, fixed once the processor and argument are known. A run over an infinite source does not end, which is expected behaviour.
- The depth budget:
  - Python stops the nested recursion with a RecursionError at the interpreter's recursion limit. The model's `None` stands for that error, but its budget counts nested runs and is not tied to the interpreter's limit, so the depth at which the two fail differs.
  - `RunFuelMonotone` and `RunCompletes` show that on acyclic graphs a large enough budget gives the one trace the unbounded runner would. On a cyclic graph a run finishes when its items die out within the budget; one whose items circulate for ever gives `None`, the modelled RecursionError.
- Item shapes: a truthy item is read as `(item[0], item[1])`, and `item[1]` only when channel `item[0]` is connected. `Emit(channel, value)` stands for those two reads, so a truthy string or a longer tuple is an `Emit` too. Items on which the reads raise (an int, or a 1-tuple on a connected channel) are not modelled.
- Funnel inputs: a funnel may take a standalone `Relationship` that no processor owns. Only owned relationships and processors are modelled, because only those can route items at run time.
- Pipelines.BuildGraph: always succeeds, while Python's recursive `add` raises a RecursionError on a chain of processors deeper than the interpreter's recursion limit; that error is not modelled.
- Pipelines.BuildGraph: does not state the graph dictionary's insertion order, because the model's graph is a map. Python's order follows the depth-first walk and each processor's channel order.
- Pipelines.VisitNodes: the order of hook calls is left open for the same reason. Only "each graph processor exactly once" is stated.
- `Pipeline(runner=...)`: a pipeline may be given a custom runner. Only `SimpleRunner` is modelled.
- `pypes/examples/infinite_pairs.py` (a demo script), `setup.py` and `pypes/__init__.py` are packaging and demos, not engine code.

## Findings

| source | as written | input that shows it | evidently intended | confidence | as-written member | corrected member |
|---|---|---|---|---|---|---|
| pypes/components.py:261-263 | `node["proc"] = proc` and then `node[k] = [...]` for every channel `k`, all in the same dictionary, so a channel named "proc" replaces the processor | a processor `p` with `p >> "proc"`, piped into a pipeline; `setup` then calls `.setup()` on a list and fails | a node keeps its processor apart from its channel lists, so the hooks reach every processor | not executed | Pipelines.ProcChannelCounterexample | Pipelines.Setup |
