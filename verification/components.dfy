/**
 * The graph-building vocabulary of the pipeline library: relationships
 * (ordered destination lists), processors (an id, a display name and a map
 * of named output relationships) and funnels (fan-in wiring).
 *
 * Python objects refer to each other by reference; here every processor
 * lives in an arena indexed by its id, and a relationship owned by a
 * processor is addressed by the pair (owner, channel name).
 */
module Components {
  import opened Wrappers

  /** Processor identities. The library draws them from uuid4; here they are
      abstract strings, distinct per processor. */
  type ProcId = string

  /** The channel that `processor | other` wires into. */
  const SuccessChannel: string := "success"

  // ---------------------------------------------------------------------
  // Relationship
  // ---------------------------------------------------------------------

  /** A named output channel: destinations in connection order, duplicates allowed. */
  datatype Relationship = Relationship(destinations: seq<ProcId>)

  /** `Relationship()`: a fresh relationship discards everything sent to it. */
  function NewRelationship(): (r: Relationship)
    ensures |r.destinations| == 0
  {
    Relationship([])
  }

  /** `rel | other`: appends `other` to the destinations and hands `other` back
      so that connections chain left to right. */
  function Connect(r: Relationship, d: ProcId): (res: (Relationship, ProcId))
    ensures res.1 == d
    ensures |res.0.destinations| == |r.destinations| + 1
    ensures res.0.destinations[..|r.destinations|] == r.destinations
    ensures res.0.destinations[|r.destinations|] == d
  {
    (Relationship(r.destinations + [d]), d)
  }

  /** Connecting never deduplicates: `d` occurs once more than before, even
      when it was already a destination, and every other count stays. */
  lemma ConnectCountsEveryConnection(r: Relationship, d: ProcId)
    ensures multiset(Connect(r, d).0.destinations)[d] == multiset(r.destinations)[d] + 1
    ensures forall x :: x != d ==> multiset(Connect(r, d).0.destinations)[x] == multiset(r.destinations)[x]
  {
    assert Connect(r, d).0.destinations == r.destinations + [d];
  }

  /** Connecting each of `ds` to `r`, first to last. */
  function ConnectAll(r: Relationship, ds: seq<ProcId>): Relationship
    decreases |ds|
  {
    if |ds| == 0 then r else ConnectAll(Connect(r, ds[0]).0, ds[1..])
  }

  /** Iterating a relationship yields its destinations in connection order:
      connecting d1 .. dn one by one leaves exactly d1 .. dn after what was there. */
  lemma {:induction false} IterationFollowsConnectionOrder(r: Relationship, ds: seq<ProcId>)
    ensures ConnectAll(r, ds).destinations == r.destinations + ds
    decreases |ds|
  {
    if |ds| > 0 {
      var r1 := Connect(r, ds[0]).0;
      IterationFollowsConnectionOrder(r1, ds[1..]);
      assert r1.destinations == r.destinations + [ds[0]];
      assert ds == [ds[0]] + ds[1..];
      assert r1.destinations + ds[1..] == r.destinations + ds;
    }
  }

  /** A fresh relationship connected to d1 .. dn iterates exactly d1 .. dn. */
  lemma FreshRelationshipIteratesConnections(ds: seq<ProcId>)
    ensures ConnectAll(NewRelationship(), ds).destinations == ds
  {
    IterationFollowsConnectionOrder(NewRelationship(), ds);
  }

  // ---------------------------------------------------------------------
  // Processor
  // ---------------------------------------------------------------------

  /** A processor: identity, display name and its output relationships by
      channel name. The wrapped stage is not stored here; the runner receives
      every processor's stage as one function. */
  datatype Processor = Processor(id: ProcId, name: string, channels: map<string, Relationship>)

  /** `Processor(fn, name)`: no relationships yet; a missing or empty name
      (`Processor.__init__` tests `if name:`) falls back to the id. */
  function NewProcessor(id: ProcId, name: Option<string>): (p: Processor)
    ensures p.id == id
    ensures p.channels == map[]
    ensures name.Some? && name.value != "" ==> p.name == name.value
    ensures name.None? || name.value == "" ==> p.name == id
    ensures id != "" ==> p.name != ""
  {
    match name
    case Some(n) => if n != "" then Processor(id, n, map[]) else Processor(id, id, map[])
    case None => Processor(id, id, map[])
  }

  /** The destinations of channel `c` of `p`, or none when `p` has no such channel. */
  function DestinationsOf(p: Processor, c: string): seq<ProcId>
  {
    if c in p.channels then p.channels[c].destinations else []
  }

  /** `proc >> name`: get-or-create. A relationship object is always truthy, so
      `__rshift__`'s `if not rel` creates one exactly when the name is absent. */
  function Channel(p: Processor, name: string): (res: (Processor, Relationship))
    ensures res.0.id == p.id && res.0.name == p.name
    ensures name in res.0.channels && res.1 == res.0.channels[name]
    ensures res.0.channels.Keys == p.channels.Keys + {name}
    ensures forall k :: k in p.channels ==> res.0.channels[k] == p.channels[k]
    ensures name in p.channels ==> res.0 == p
    ensures name !in p.channels ==> res.1.destinations == []
  {
    if name in p.channels then (p, p.channels[name])
    else
      var r := NewRelationship();
      (p.(channels := p.channels[name := r]), r)
  }

  /** Asking for the same channel twice changes nothing the second time. */
  lemma ChannelIdempotent(p: Processor, name: string)
    ensures Channel(Channel(p, name).0, name) == Channel(p, name)
  {
  }

  /** `proc | other`: appends `other` to the "success" relationship, creating
      that relationship first when absent, and returns `other`. */
  function Pipe(p: Processor, other: ProcId): (res: (Processor, ProcId))
    ensures res.1 == other
    ensures res.0.id == p.id && res.0.name == p.name
    ensures res.0.channels.Keys == p.channels.Keys + {SuccessChannel}
    ensures res.0.channels[SuccessChannel].destinations == DestinationsOf(p, SuccessChannel) + [other]
    ensures forall k :: k in p.channels && k != SuccessChannel ==> res.0.channels[k] == p.channels[k]
  {
    var rel := if SuccessChannel in p.channels then p.channels[SuccessChannel] else NewRelationship();
    var (rel', d) := Connect(rel, other);
    (p.(channels := p.channels[SuccessChannel := rel']), d)
  }

  /** `p | other` is the same as `(p >> "success") | other`. */
  lemma PipeIsSuccessChannelThenConnect(p: Processor, other: ProcId)
    ensures var (q, rel) := Channel(p, SuccessChannel);
            Pipe(p, other).0 == q.(channels := q.channels[SuccessChannel := Connect(rel, other).0])
  {
  }

  // ---------------------------------------------------------------------
  // The arena of processors
  // ---------------------------------------------------------------------

  /** Every processor in existence, by id. */
  type Arena = map<ProcId, Processor>

  /** `processor.relationships.get(channel)`; an id outside the arena owns nothing. */
  function RelationshipOf(arena: Arena, owner: ProcId, channel: string): (r: Option<Relationship>)
    ensures r.Some? <==> owner in arena && channel in arena[owner].channels
    ensures r.Some? ==> r.value == arena[owner].channels[channel]
  {
    if owner in arena && channel in arena[owner].channels then Some(arena[owner].channels[channel])
    else None
  }

  /** Every destination of every relationship of `x`. */
  function Successors(arena: Arena, x: ProcId): set<ProcId>
  {
    if x in arena then
      set c, d | c in arena[x].channels && d in arena[x].channels[c].destinations :: d
    else {}
  }

  /** A destination of a relationship is among the owner's successors. */
  lemma DestinationIsSuccessor(arena: Arena, x: ProcId, c: string, d: ProcId)
    requires x in arena && c in arena[x].channels && d in arena[x].channels[c].destinations
    ensures d in Successors(arena, x)
  {
  }

  /** The object graph the Python references form: each processor is stored
      under its own id, and every destination is a processor that exists. */
  predicate WellFormed(arena: Arena)
  {
    && (forall x :: x in arena ==> arena[x].id == x)
    && (forall x, y :: x in arena && y in Successors(arena, x) ==> y in arena)
  }

  // ---------------------------------------------------------------------
  // Funnel
  // ---------------------------------------------------------------------

  /** A relationship object, named by the processor that owns it and its channel. */
  datatype RelRef = RelRef(owner: ProcId, channel: string)

  /** An argument of `Funnel(...)`: a relationship, or a processor standing for
      its "success" relationship. */
  datatype FunnelInput = FromRelationship(rel: RelRef) | FromProcessor(proc: ProcId)

  /** The relationship an input connects through. */
  function Target(i: FunnelInput): RelRef
  {
    match i
    case FromRelationship(r) => r
    case FromProcessor(p) => RelRef(p, SuccessChannel)
  }

  /** An input denotes an existing object: a relationship obtained from its
      owner, or a processor. */
  predicate Resolvable(arena: Arena, i: FunnelInput)
  {
    match i
    case FromRelationship(r) => r.owner in arena && r.channel in arena[r.owner].channels
    case FromProcessor(p) => p in arena
  }

  /** The destinations behind a relationship reference; none if it does not exist yet. */
  function DestinationsAt(arena: Arena, r: RelRef): seq<ProcId>
  {
    if r.owner in arena then DestinationsOf(arena[r.owner], r.channel) else []
  }

  /** `input | other` for one funnel input. */
  function ConnectInput(arena: Arena, i: FunnelInput, d: ProcId): (a: Arena)
    requires Resolvable(arena, i)
    ensures a.Keys == arena.Keys
    ensures forall o :: o in arena ==> a[o].id == arena[o].id && a[o].name == arena[o].name
  {
    match i
    case FromRelationship(r) =>
      var p := arena[r.owner];
      var rel' := Connect(p.channels[r.channel], d).0;
      arena[r.owner := p.(channels := p.channels[r.channel := rel'])]
    case FromProcessor(q) =>
      arena[q := Pipe(arena[q], d).0]
  }

  /** One funnel input changes only its own relationship: `d` is appended to
      it (creating it when absent), and every other relationship keeps its
      destinations and its presence. */
  lemma ConnectInputEffect(arena: Arena, i: FunnelInput, d: ProcId, r: RelRef)
    requires Resolvable(arena, i)
    requires r.owner in arena
    ensures r.channel in ConnectInput(arena, i, d)[r.owner].channels
        <==> (r.channel in arena[r.owner].channels || r == Target(i))
    ensures DestinationsAt(ConnectInput(arena, i, d), r)
         == DestinationsAt(arena, r) + (if r == Target(i) then [d] else [])
  {
    var a := ConnectInput(arena, i, d);
    var t := Target(i);
    var p := arena[t.owner];
    var p' := a[t.owner];
    match i {
      case FromRelationship(_) =>
        assert p'.channels == p.channels[t.channel := Connect(p.channels[t.channel], d).0];
      case FromProcessor(_) =>
        assert p' == Pipe(p, d).0;
    }
    if r.owner != t.owner {
      assert a[r.owner] == arena[r.owner];
    } else if r.channel != t.channel {
      assert r.channel in p'.channels <==> r.channel in p.channels;
      assert DestinationsOf(p', r.channel) == DestinationsOf(p, r.channel);
    } else {
      assert r == t;
      assert DestinationsOf(p', r.channel) == DestinationsOf(p, r.channel) + [d];
    }
  }

  /** `n` copies of `d`. */
  function Repeat(d: ProcId, n: nat): (s: seq<ProcId>)
    ensures |s| == n
    ensures forall k :: 0 <= k < n ==> s[k] == d
  {
    if n == 0 then [] else [d] + Repeat(d, n - 1)
  }

  lemma RepeatOneMore(s: seq<ProcId>, d: ProcId, n: nat)
    ensures (s + [d]) + Repeat(d, n) == s + Repeat(d, n + 1)
  {
    assert Repeat(d, n + 1) == [d] + Repeat(d, n);
  }

  /** How many inputs connect through relationship `r`. */
  function Hits(inputs: seq<FunnelInput>, r: RelRef): nat
  {
    if |inputs| == 0 then 0
    else (if Target(inputs[0]) == r then 1 else 0) + Hits(inputs[1..], r)
  }

  /** Connecting the first input leaves the remaining inputs resolvable. */
  lemma ConnectKeepsResolvable(arena: Arena, inputs: seq<FunnelInput>, d: ProcId)
    requires |inputs| > 0
    requires forall i :: i in inputs ==> Resolvable(arena, i)
    ensures forall i :: i in inputs[1..] ==> Resolvable(ConnectInput(arena, inputs[0], d), i)
  {
    var a1 := ConnectInput(arena, inputs[0], d);
    forall i | i in inputs[1..] ensures Resolvable(a1, i) {
      assert i in inputs;
      match i
      case FromRelationship(r) => ConnectInputEffect(arena, inputs[0], d, r);
      case FromProcessor(p) =>
    }
  }

  /** `Funnel(*inputs) | d`: connects `d` through every input, first to last,
      and returns `d`. */
  function FunnelInto(arena: Arena, inputs: seq<FunnelInput>, d: ProcId): (res: (Arena, ProcId))
    requires forall i :: i in inputs ==> Resolvable(arena, i)
    ensures res.1 == d
    ensures res.0.Keys == arena.Keys
    ensures forall o :: o in arena ==> res.0[o].id == arena[o].id && res.0[o].name == arena[o].name
    decreases |inputs|
  {
    if |inputs| == 0 then (arena, d)
    else
      var a1 := ConnectInput(arena, inputs[0], d);
      ConnectKeepsResolvable(arena, inputs, d);
      FunnelInto(a1, inputs[1..], d)
  }

  /** The funnel in closed form, for one relationship `r`: it ends with `d`
      repeated once per input that names it (a processor input naming its
      "success" relationship, created if absent), after its earlier
      destinations; it exists afterwards exactly when it existed before or an
      input names it. */
  lemma {:induction false} FunnelConnectsInput(arena: Arena, inputs: seq<FunnelInput>, d: ProcId, r: RelRef)
    requires forall i :: i in inputs ==> Resolvable(arena, i)
    requires r.owner in arena
    ensures DestinationsAt(FunnelInto(arena, inputs, d).0, r) == DestinationsAt(arena, r) + Repeat(d, Hits(inputs, r))
    ensures r.channel in FunnelInto(arena, inputs, d).0[r.owner].channels
        <==> (r.channel in arena[r.owner].channels || Hits(inputs, r) > 0)
    decreases |inputs|
  {
    if |inputs| > 0 {
      var a1 := ConnectInput(arena, inputs[0], d);
      var tail := inputs[1..];
      ConnectKeepsResolvable(arena, inputs, d);
      var res := FunnelInto(a1, tail, d).0;
      assert FunnelInto(arena, inputs, d).0 == res;
      FunnelConnectsInput(a1, tail, d, r);
      ConnectInputEffect(arena, inputs[0], d, r);
      if Target(inputs[0]) == r {
        assert Hits(inputs, r) == Hits(tail, r) + 1;
        RepeatOneMore(DestinationsAt(arena, r), d, Hits(tail, r));
      } else {
        assert Hits(inputs, r) == Hits(tail, r);
        assert DestinationsAt(a1, r) == DestinationsAt(arena, r) + [];
      }
    } else {
      assert FunnelInto(arena, inputs, d).0 == arena;
      assert Repeat(d, Hits(inputs, r)) == [];
      assert DestinationsAt(arena, r) + [] == DestinationsAt(arena, r);
    }
  }

  /** The closed form for every relationship at once: relationships that no
      input names keep their destinations and their presence. */
  lemma FunnelConnectsEveryInput(arena: Arena, inputs: seq<FunnelInput>, d: ProcId)
    requires forall i :: i in inputs ==> Resolvable(arena, i)
    ensures forall r: RelRef :: r.owner in arena ==>
      DestinationsAt(FunnelInto(arena, inputs, d).0, r) == DestinationsAt(arena, r) + Repeat(d, Hits(inputs, r))
    ensures forall r: RelRef :: r.owner in arena && Hits(inputs, r) == 0 ==>
      (r.channel in FunnelInto(arena, inputs, d).0[r.owner].channels <==> r.channel in arena[r.owner].channels)
  {
    forall r: RelRef | r.owner in arena
      ensures DestinationsAt(FunnelInto(arena, inputs, d).0, r) == DestinationsAt(arena, r) + Repeat(d, Hits(inputs, r))
      ensures Hits(inputs, r) == 0 ==>
        (r.channel in FunnelInto(arena, inputs, d).0[r.owner].channels <==> r.channel in arena[r.owner].channels)
    {
      FunnelConnectsInput(arena, inputs, d, r);
    }
  }

  /** A processor's "success" fan-in: funnelling the same processor twice
      connects the destination twice (no dedup). */
  lemma FunnelDoesNotDedup(arena: Arena, p: ProcId, d: ProcId)
    requires p in arena
    ensures DestinationsAt(FunnelInto(arena, [FromProcessor(p), FromProcessor(p)], d).0, RelRef(p, SuccessChannel))
         == DestinationsOf(arena[p], SuccessChannel) + [d, d]
  {
    var inputs := [FromProcessor(p), FromProcessor(p)];
    FunnelConnectsEveryInput(arena, inputs, d);
    var r := RelRef(p, SuccessChannel);
    assert Target(inputs[0]) == r;
    assert inputs[1..] == [FromProcessor(p)];
    assert Hits([FromProcessor(p)], r) == 1 by {
      assert [FromProcessor(p)][1..] == [];
    }
    assert Hits(inputs, r) == 2;
    assert Repeat(d, 2) == [d, d];
  }

  /** Wiring into a processor that exists keeps the arena well formed. */
  lemma {:induction false} FunnelKeepsWellFormed(arena: Arena, inputs: seq<FunnelInput>, d: ProcId)
    requires WellFormed(arena) && d in arena
    requires forall i :: i in inputs ==> Resolvable(arena, i)
    ensures WellFormed(FunnelInto(arena, inputs, d).0)
  {
    var a := FunnelInto(arena, inputs, d).0;
    FunnelConnectsEveryInput(arena, inputs, d);
    forall x, y | x in a && y in Successors(a, x) ensures y in a {
      var c, k :| c in a[x].channels && 0 <= k < |a[x].channels[c].destinations| && a[x].channels[c].destinations[k] == y;
      var r := RelRef(x, c);
      assert DestinationsAt(a, r) == a[x].channels[c].destinations;
      var old_ := DestinationsAt(arena, r);
      if k < |old_| {
        assert old_[k] == y;
        assert c in arena[x].channels;
        DestinationIsSuccessor(arena, x, c, y);
      } else {
        assert y == d;
      }
    }
  }
}
