/**
 * The round structure of `SimpleRunner`: the `gens` dictionary of live
 * generators, `_process_next` pulling one item from each of them in
 * registration order, and the loop in `run` that repeats rounds until no
 * generator is left.
 *
 * A generator is a cursor over a finite sequence of items; pulling from an
 * empty cursor is Python's StopIteration. Dispatching the pulled items is
 * the business of the Runner module and does not touch these cursors,
 * because every nested run keeps its own dictionary of generators.
 */
module Schedule {
  import opened Components

  /** A live generator: `gen` is its registration number (the dictionary key's
      identity), `owner` the processor it came from, `rest` what it has yet to yield. */
  datatype Cursor<T> = Cursor(gen: nat, owner: ProcId, rest: seq<T>)

  /** What `next(gen)` produces: an item, or StopIteration. */
  datatype Pulled<T> = Item(item: T) | Stop

  /** One pull of one round, labelled with the generator it came from. */
  datatype Pull<T> = Pull(gen: nat, owner: ProcId, result: Pulled<T>)

  /** `next(gen)` on one cursor. */
  function PullOf<T>(c: Cursor<T>): (p: Pull<T>)
    ensures p.gen == c.gen && p.owner == c.owner
    ensures p.result.Stop? <==> |c.rest| == 0
    ensures p.result.Item? ==> p.result.item == c.rest[0]
  {
    Pull(c.gen, c.owner, if |c.rest| == 0 then Stop else Item(c.rest[0]))
  }

  /** The cursor after one successful pull. */
  function Advance<T>(c: Cursor<T>): Cursor<T>
    requires |c.rest| > 0
  {
    c.(rest := c.rest[1..])
  }

  /** Generators listed in registration order, each once. */
  predicate Increasing<T>(cs: seq<Cursor<T>>)
  {
    forall i, j :: 0 <= i < j < |cs| ==> cs[i].gen < cs[j].gen
  }

  /** Pulls listed in registration order, each generator once. */
  predicate IncreasingPulls<T>(round: seq<Pull<T>>)
  {
    forall i, j :: 0 <= i < j < |round| ==> round[i].gen < round[j].gen
  }

  /** The pulls still to come: every generator is pulled once per remaining
      item plus once more to hit StopIteration. */
  function Remaining<T>(cs: seq<Cursor<T>>): nat
  {
    if |cs| == 0 then 0 else |cs[0].rest| + 1 + Remaining(cs[1..])
  }

  /** The generators of a dictionary. */
  ghost function CursorGens<T>(cs: seq<Cursor<T>>): set<nat>
  {
    set c | c in cs :: c.gen
  }

  /** The processors owning the generators of a dictionary. */
  ghost function CursorOwners<T>(cs: seq<Cursor<T>>): set<ProcId>
  {
    set c | c in cs :: c.owner
  }

  /** The dictionary `_process_next` returns: a generator that raised
      StopIteration this round is dropped, every other one stays, advanced
      by the one item it yielded, in its old relative position. */
  function Step<T>(cs: seq<Cursor<T>>): (s: seq<Cursor<T>>)
    ensures Remaining(s) + |cs| == Remaining(cs)
  {
    if |cs| == 0 then []
    else if |cs[0].rest| == 0 then Step(cs[1..])
    else [Advance(cs[0])] + Step(cs[1..])
  }

  /** The survivors of a round are exactly the generators that yielded an
      item, each advanced past that item. */
  lemma {:induction false} StepSurvivors<T>(cs: seq<Cursor<T>>)
    ensures forall c :: c in Step(cs) ==> exists c0 :: c0 in cs && |c0.rest| > 0 && c == Advance(c0)
    ensures forall c0 :: c0 in cs && |c0.rest| > 0 ==> Advance(c0) in Step(cs)
  {
    if |cs| > 0 {
      var tail := cs[1..];
      StepSurvivors(tail);
      forall c | c in Step(cs) ensures exists c0 :: c0 in cs && |c0.rest| > 0 && c == Advance(c0) {
        if |cs[0].rest| > 0 && c == Advance(cs[0]) {
          assert cs[0] in cs;
        } else {
          var c0 :| c0 in tail && |c0.rest| > 0 && c == Advance(c0);
          assert c0 in cs;
        }
      }
      forall c0 | c0 in cs && |c0.rest| > 0 ensures Advance(c0) in Step(cs) {
        if c0 != cs[0] {
          assert c0 in tail;
        }
      }
    }
  }

  /** A bound below every generator number survives a round. */
  lemma {:induction false} StepAbove<T>(cs: seq<Cursor<T>>, g: nat)
    requires forall i :: 0 <= i < |cs| ==> cs[i].gen > g
    ensures forall i :: 0 <= i < |Step(cs)| ==> Step(cs)[i].gen > g
  {
    if |cs| > 0 {
      var tail := cs[1..];
      assert forall i :: 0 <= i < |tail| ==> tail[i] == cs[i + 1];
      StepAbove(tail, g);
      if |cs[0].rest| > 0 {
        var s := Step(cs);
        assert s == [Advance(cs[0])] + Step(tail);
        forall i | 0 < i < |s| ensures s[i].gen > g {
          assert s[i] == Step(tail)[i - 1];
        }
      }
    }
  }

  /** Survivors keep their relative order. */
  lemma {:induction false} StepKeepsIncreasing<T>(cs: seq<Cursor<T>>)
    requires Increasing(cs)
    ensures Increasing(Step(cs))
  {
    if |cs| > 0 {
      var tail := cs[1..];
      assert forall i :: 0 <= i < |tail| ==> tail[i] == cs[i + 1];
      assert Increasing(tail);
      StepKeepsIncreasing(tail);
      if |cs[0].rest| > 0 {
        var s := Step(cs);
        var st := Step(tail);
        assert s == [Advance(cs[0])] + st;
        StepAbove(tail, cs[0].gen);
        forall i, j | 0 <= i < j < |s| ensures s[i].gen < s[j].gen {
          assert s[j] == st[j - 1];
          if i > 0 {
            assert s[i] == st[i - 1];
          }
        }
      }
    }
  }

  /** Survivors keep their order, the generators left are exactly those that
      yielded an item, and a generator never comes back once dropped. */
  lemma StepKeepsOrder<T>(cs: seq<Cursor<T>>)
    requires Increasing(cs)
    ensures Increasing(Step(cs))
    ensures CursorGens(Step(cs)) == set c | c in cs && |c.rest| > 0 :: c.gen
    ensures CursorOwners(Step(cs)) <= CursorOwners(cs)
  {
    StepKeepsIncreasing(cs);
    StepSurvivors(cs);
    var s := Step(cs);
    forall c | c in s ensures c.owner in CursorOwners(cs) {
      var c0 :| c0 in cs && |c0.rest| > 0 && c == Advance(c0);
    }
    forall g | g in CursorGens(s) ensures g in set c | c in cs && |c.rest| > 0 :: c.gen {
      var c :| c in s && c.gen == g;
      var c0 :| c0 in cs && |c0.rest| > 0 && c == Advance(c0);
    }
    forall g | g in set c | c in cs && |c.rest| > 0 :: c.gen ensures g in CursorGens(s) {
      var c0 :| c0 in cs && |c0.rest| > 0 && c0.gen == g;
      assert Advance(c0) in s;
    }
  }

  /** One round of `_process_next`: one `next` per live generator, in order. */
  function RoundPulls<T>(cs: seq<Cursor<T>>): seq<Pull<T>>
  {
    if |cs| == 0 then [] else [PullOf(cs[0])] + RoundPulls(cs[1..])
  }

  /** A round pulls every live generator once, in dictionary order. */
  lemma {:induction false} RoundPullsEach<T>(cs: seq<Cursor<T>>)
    ensures |RoundPulls(cs)| == |cs|
    ensures forall i :: 0 <= i < |cs| ==> RoundPulls(cs)[i] == PullOf(cs[i])
  {
    if |cs| > 0 {
      RoundPullsEach(cs[1..]);
      forall i | 0 < i < |cs| ensures RoundPulls(cs)[i] == PullOf(cs[i]) {
        assert RoundPulls(cs)[i] == RoundPulls(cs[1..])[i - 1];
      }
    }
  }

  /** The loop at the end of `SimpleRunner.run`, which replaces the dictionary
      by the survivors of one more round for as long as any generator is
      left: the pulls of every round, in order. */
  function Rounds<T>(cs: seq<Cursor<T>>): seq<seq<Pull<T>>>
    decreases Remaining(cs)
  {
    if |cs| == 0 then [] else [RoundPulls(cs)] + Rounds(Step(cs))
  }

  function Max(a: nat, b: nat): nat
  {
    if a < b then b else a
  }

  /** The longest generator's item count, plus one for its StopIteration;
      zero for an empty dictionary. */
  function Span<T>(cs: seq<Cursor<T>>): nat
  {
    if |cs| == 0 then 0 else Max(|cs[0].rest| + 1, Span(cs[1..]))
  }

  lemma {:induction false} SpanStep<T>(cs: seq<Cursor<T>>)
    requires |cs| > 0
    ensures Span(Step(cs)) + 1 == Span(cs)
  {
    if |cs| > 1 {
      SpanStep(cs[1..]);
    }
  }

  /** The loop runs one round per pull of the longest generator and stops
      exactly when the dictionary becomes empty. */
  lemma {:induction false} RoundsLength<T>(cs: seq<Cursor<T>>)
    ensures |Rounds(cs)| == Span(cs)
    ensures |Rounds(cs)| == 0 <==> |cs| == 0
    decreases Remaining(cs)
  {
    if |cs| > 0 {
      RoundsLength(Step(cs));
      SpanStep(cs);
    }
  }

  /** The generators pulled in a round. */
  ghost function GensOf<T>(round: seq<Pull<T>>): set<nat>
  {
    set p | p in round :: p.gen
  }

  /** The generators of a round that yielded an item rather than StopIteration. */
  ghost function Yielding<T>(round: seq<Pull<T>>): set<nat>
  {
    set p | p in round && p.result.Item? :: p.gen
  }

  lemma RoundPullsGens<T>(cs: seq<Cursor<T>>)
    ensures GensOf(RoundPulls(cs)) == CursorGens(cs)
    ensures Yielding(RoundPulls(cs)) == set c | c in cs && |c.rest| > 0 :: c.gen
  {
    var round := RoundPulls(cs);
    RoundPullsEach(cs);
    forall g | g in GensOf(round) ensures g in CursorGens(cs) {
      var i :| 0 <= i < |round| && round[i].gen == g;
      assert cs[i] in cs;
    }
    forall g | g in CursorGens(cs) ensures g in GensOf(round) {
      var i :| 0 <= i < |cs| && cs[i].gen == g;
      assert round[i] in round;
    }
    forall g | g in Yielding(round) ensures g in set c | c in cs && |c.rest| > 0 :: c.gen {
      var i :| 0 <= i < |round| && round[i].gen == g && round[i].result.Item?;
      assert cs[i] in cs;
    }
    forall g | g in (set c | c in cs && |c.rest| > 0 :: c.gen) ensures g in Yielding(round) {
      var i :| 0 <= i < |cs| && cs[i].gen == g && |cs[i].rest| > 0;
      assert round[i] in round;
    }
  }

  /** The shape of every run: each round pulls every live generator exactly
      once, in registration order; the first round pulls every registered
      generator; a generator is pulled in the next round exactly when it
      yielded an item in this one (StopIteration drops it, but only after the
      round); and in the last round every generator hits StopIteration. */
  lemma {:induction false} RoundsShape<T>(cs: seq<Cursor<T>>)
    requires Increasing(cs)
    ensures forall k :: 0 <= k < |Rounds(cs)| ==> |Rounds(cs)[k]| > 0 && IncreasingPulls(Rounds(cs)[k])
    ensures |cs| > 0 ==> GensOf(Rounds(cs)[0]) == CursorGens(cs)
    ensures forall k :: 0 <= k < |Rounds(cs)| - 1 ==> GensOf(Rounds(cs)[k + 1]) == Yielding(Rounds(cs)[k])
    ensures |Rounds(cs)| > 0 ==> Yielding(Rounds(cs)[|Rounds(cs)| - 1]) == {}
    decreases Remaining(cs)
  {
    if |cs| > 0 {
      var s := Step(cs);
      StepKeepsOrder(cs);
      RoundsShape(s);
      RoundPullsGens(cs);
      RoundPullsGens(s);
      var R: seq<seq<Pull<T>>> := Rounds(cs);
      assert R == [RoundPulls(cs)] + Rounds(s);
      RoundPullsEach(cs);
      assert IncreasingPulls(RoundPulls(cs));
      if |s| > 0 {
        assert GensOf(Rounds(s)[0]) == Yielding(R[0]);
      } else {
        assert Yielding(R[0]) == {};
      }
      forall k | 0 <= k < |R| - 1 ensures GensOf(R[k + 1]) == Yielding(R[k]) {
        if k > 0 {
          assert R[k] == Rounds(s)[k - 1] && R[k + 1] == Rounds(s)[k];
        }
      }
    }
  }

  /** The pulls a single generator sees over a whole schedule, round after round. */
  function PullsOf<T>(rounds: seq<seq<Pull<T>>>, g: nat): seq<Pulled<T>>
  {
    if |rounds| == 0 then [] else Project(rounds[0], g) + PullsOf(rounds[1..], g)
  }

  /** The pulls of generator `g` within one round. */
  function Project<T>(round: seq<Pull<T>>, g: nat): seq<Pulled<T>>
  {
    if |round| == 0 then []
    else (if round[0].gen == g then [round[0].result] else []) + Project(round[1..], g)
  }

  /** What iterating a generator over `items` to exhaustion looks like: every
      item in order, then StopIteration. */
  function Stream<T>(items: seq<T>): (s: seq<Pulled<T>>)
    ensures |s| == |items| + 1
    ensures s[|items|] == Stop
    ensures forall k :: 0 <= k < |items| ==> s[k] == Item(items[k])
  {
    if |items| == 0 then [Stop] else [Item(items[0])] + Stream(items[1..])
  }

  lemma {:induction false} ProjectAbsent<T>(cs: seq<Cursor<T>>, g: nat)
    requires g !in CursorGens(cs)
    ensures Project(RoundPulls(cs), g) == []
  {
    if |cs| > 0 {
      RoundPullsEach(cs);
      assert RoundPulls(cs)[1..] == RoundPulls(cs[1..]);
      ProjectAbsent(cs[1..], g);
    }
  }

  lemma {:induction false} ProjectPresent<T>(cs: seq<Cursor<T>>, c: Cursor<T>)
    requires Increasing(cs) && c in cs
    ensures Project(RoundPulls(cs), c.gen) == [PullOf(c).result]
  {
    var round := RoundPulls(cs);
    var tail := cs[1..];
    RoundPullsEach(cs);
    assert round[1..] == RoundPulls(tail);
    assert Increasing(tail);
    if cs[0] == c {
      assert c.gen !in CursorGens(tail) by {
        forall c1 | c1 in tail ensures c1.gen != c.gen {
          var k :| 0 <= k < |tail| && tail[k] == c1;
          assert cs[k + 1] == c1;
        }
      }
      ProjectAbsent(tail, c.gen);
      assert Project(round, c.gen) == [round[0].result] + Project(round[1..], c.gen);
    } else {
      var k :| 0 <= k < |cs| && cs[k] == c;
      assert k > 0;
      assert cs[0].gen != c.gen;
      assert tail[k - 1] == c;
      ProjectPresent(tail, c);
      assert Project(round, c.gen) == Project(round[1..], c.gen);
    }
  }

  lemma {:induction false} PullsAbsent<T>(cs: seq<Cursor<T>>, g: nat)
    requires g !in CursorGens(cs)
    ensures PullsOf(Rounds(cs), g) == []
    decreases Remaining(cs)
  {
    if |cs| > 0 {
      ProjectAbsent(cs, g);
      var s := Step(cs);
      StepSurvivors(cs);
      forall c | c in s ensures c.gen != g {
        var c0 :| c0 in cs && |c0.rest| > 0 && c == Advance(c0);
      }
      PullsAbsent(s, g);
      assert Rounds(cs) == [RoundPulls(cs)] + Rounds(s);
      assert Rounds(cs)[1..] == Rounds(s);
    }
  }

  /** A registered generator with n items is pulled exactly n + 1 times over
      the whole run: it sees its items in order, then StopIteration, and
      nothing after that. */
  lemma {:induction false} PulledToExhaustion<T>(cs: seq<Cursor<T>>, c: Cursor<T>)
    requires Increasing(cs) && c in cs
    ensures PullsOf(Rounds(cs), c.gen) == Stream(c.rest)
    decreases Remaining(cs)
  {
    var s := Step(cs);
    ProjectPresent(cs, c);
    StepKeepsOrder(cs);
    StepSurvivors(cs);
    assert Rounds(cs) == [RoundPulls(cs)] + Rounds(s);
    assert Rounds(cs)[1..] == Rounds(s);
    if |c.rest| == 0 {
      forall c1 | c1 in s ensures c1.gen != c.gen {
        var c0 :| c0 in cs && |c0.rest| > 0 && c1 == Advance(c0);
        var i :| 0 <= i < |cs| && cs[i] == c0;
        var j :| 0 <= j < |cs| && cs[j] == c;
        assert i != j;
      }
      PullsAbsent(s, c.gen);
    } else {
      PulledToExhaustion(s, Advance(c));
    }
  }

  /** Every pull of every round comes from a generator of the dictionary. */
  lemma {:induction false} RoundsOwners<T>(cs: seq<Cursor<T>>)
    ensures forall k, i :: 0 <= k < |Rounds(cs)| && 0 <= i < |Rounds(cs)[k]| ==>
      Rounds(cs)[k][i].owner in CursorOwners(cs)
    decreases Remaining(cs)
  {
    if |cs| > 0 {
      var s := Step(cs);
      RoundsOwners(s);
      var R: seq<seq<Pull<T>>> := Rounds(cs);
      assert R == [RoundPulls(cs)] + Rounds(s);
      StepSurvivors(cs);
      RoundPullsEach(cs);
      forall c | c in s ensures c.owner in CursorOwners(cs) {
        var c0 :| c0 in cs && |c0.rest| > 0 && c == Advance(c0);
      }
      forall k: nat, i: nat | k < |R| && i < |R[k]| ensures R[k][i].owner in CursorOwners(cs) {
        if k == 0 {
          assert cs[i] in cs;
        } else {
          assert R[k] == Rounds(s)[k - 1];
          assert R[k][i].owner in CursorOwners(s);
        }
      }
    }
  }
}
