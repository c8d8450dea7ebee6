/** The sliding-window aggregator: one pruned buffer of samples per connector, reduced on demand. */
module Aggregators {
  import opened Basics
  import opened Policies
  import opened Decider
  import opened Reductions

  /** A sample; a signal it does not carry is absent, not zero. */
  datatype Sample = Sample(id: Id, ts: int, cpu: Option<real>, bps: Option<real>)

  datatype Signal = Cpu | Throughput

  type Buffers = map<Id, seq<Sample>>

  function Value(s: Sample, signal: Signal): Option<real> { if signal == Cpu then s.cpu else s.bps }

  function BufferOf(b: Buffers, id: Id): seq<Sample> { if id in b then b[id] else [] }

  // --- what the operations do ----------------------------------------------------

  function Added(b: Buffers, s: Sample): Buffers { b[s.id := BufferOf(b, s.id) + [s]] }

  function Ingested(b: Buffers, batch: seq<Sample>): Buffers {
    if batch == [] then b else Added(Ingested(b, batch[..|batch| - 1]), batch[|batch| - 1])
  }

  function Kept(samples: seq<Sample>, cutoff: int): seq<Sample> {
    if samples == [] then []
    else
      var (earlier, s) := (Kept(samples[..|samples| - 1], cutoff), samples[|samples| - 1]);
      if s.ts >= cutoff then earlier + [s] else earlier
  }

  /** Old samples go, and with the last of them the connector's entry. */
  function Pruned(b: Buffers, cutoff: int): Buffers {
    map id | id in b && Kept(b[id], cutoff) != [] :: Kept(b[id], cutoff)
  }

  /** The values of one signal in the window, in order of arrival. */
  function Windowed(samples: seq<Sample>, signal: Signal, cutoff: int): seq<real> {
    if samples == [] then []
    else
      var (earlier, s) := (Windowed(samples[..|samples| - 1], signal, cutoff), samples[|samples| - 1]);
      if s.ts >= cutoff && Value(s, signal).Some? then earlier + [Value(s, signal).value] else earlier
  }

  function Own(b: Buffers, id: Id, signal: Signal, cutoff: int): seq<real> { Windowed(BufferOf(b, id), signal, cutoff) }

  // --- which samples those are -----------------------------------------------------

  /** `places` lists, in ascending order, exactly the places where `wanted` holds. */
  ghost predicate Picks(places: seq<nat>, samples: seq<Sample>, wanted: Sample -> bool) {
    && (forall j, k :: 0 <= j < k < |places| ==> places[j] < places[k])
    && (forall k :: 0 <= k < |places| ==> places[k] < |samples| && wanted(samples[places[k]]))
    && (forall i :: 0 <= i < |samples| && wanted(samples[i]) ==> i in places)
  }

  function AtOrAfter(cutoff: int): Sample -> bool { (s: Sample) => s.ts >= cutoff }

  /** At or after the cutoff, with a CPU reading for one signal and a rate for the other. */
  function Carrying(signal: Signal, cutoff: int): Sample -> bool {
    (s: Sample) => s.ts >= cutoff && if signal == Cpu then s.cpu.Some? else s.bps.Some?
  }

  /** `chosen` are the samples at those places. */
  ghost predicate Selects(places: seq<nat>, samples: seq<Sample>, wanted: Sample -> bool, chosen: seq<Sample>) {
    && Picks(places, samples, wanted) && |chosen| == |places|
    && forall k :: 0 <= k < |places| ==> chosen[k] == samples[places[k]]
  }

  lemma PicksMore(places: seq<nat>, samples: seq<Sample>, wanted: Sample -> bool, s: Sample)
    requires Picks(places, samples, wanted)
    ensures wanted(s) ==> Picks(places + [|samples|], samples + [s], wanted)
    ensures !wanted(s) ==> Picks(places, samples + [s], wanted)
  {
    var longer := samples + [s];
    var more := places + [|samples|];
    assert more[|places|] == |samples|;
    forall i | 0 <= i < |longer| && wanted(longer[i])
      ensures i in more && (i < |samples| ==> i in places)
    {
      if i < |samples| {
        assert longer[i] == samples[i] && i in places;
      }
    }
  }

  lemma SelectsMore(places: seq<nat>, samples: seq<Sample>, wanted: Sample -> bool, chosen: seq<Sample>, s: Sample)
    requires Selects(places, samples, wanted, chosen)
    ensures wanted(s) ==> Selects(places + [|samples|], samples + [s], wanted, chosen + [s])
    ensures !wanted(s) ==> Selects(places, samples + [s], wanted, chosen)
  {
    PicksMore(places, samples, wanted, s);
  }

  /** Pruning keeps exactly the samples at or after the cutoff, in their order. */
  lemma {:induction false} KeptExact(samples: seq<Sample>, cutoff: int) returns (places: seq<nat>)
    ensures Selects(places, samples, AtOrAfter(cutoff), Kept(samples, cutoff))
  {
    places := [];
    if samples != [] {
      var init, s := samples[..|samples| - 1], samples[|samples| - 1];
      places := KeptExact(init, cutoff);
      SelectsMore(places, init, AtOrAfter(cutoff), Kept(init, cutoff), s);
      assert init + [s] == samples;
      if s.ts >= cutoff {
        places := places + [|init|];
      }
    }
  }

  /** A connector's window holds the values of the samples that carry the signal at or after the cutoff, in their
      order: its CPU readings for one signal, its rates for the other. */
  lemma {:induction false} WindowExact(samples: seq<Sample>, signal: Signal, cutoff: int)
    returns (places: seq<nat>, chosen: seq<Sample>)
    ensures Selects(places, samples, Carrying(signal, cutoff), chosen)
            && |Windowed(samples, signal, cutoff)| == |chosen|
    ensures forall k :: 0 <= k < |chosen| ==>
              Some(Windowed(samples, signal, cutoff)[k]) == if signal == Cpu then chosen[k].cpu else chosen[k].bps
  {
    places, chosen := [], [];
    if samples != [] {
      var init, s := samples[..|samples| - 1], samples[|samples| - 1];
      places, chosen := WindowExact(init, signal, cutoff);
      SelectsMore(places, init, Carrying(signal, cutoff), chosen, s);
      assert init + [s] == samples;
      if s.ts >= cutoff && (if signal == Cpu then s.cpu else s.bps).Some? {
        places, chosen := places + [|init|], chosen + [s];
      }
    }
  }

  /** A pruned buffer is left for exactly the connectors with a sample at or after the cutoff, and holds exactly
      those of its samples. */
  lemma PrunedExact(b: Buffers, cutoff: int, id: Id) returns (places: seq<nat>)
    ensures id in Pruned(b, cutoff) <==> id in b && exists s :: s in b[id] && s.ts >= cutoff
    ensures id in Pruned(b, cutoff) ==> Selects(places, b[id], AtOrAfter(cutoff), Pruned(b, cutoff)[id])
  {
    places := [];
    if id in b {
      places := KeptExact(b[id], cutoff);
      if places != [] {
        assert b[id][places[0]] in b[id] && b[id][places[0]].ts >= cutoff;
      }
      if s :| s in b[id] && s.ts >= cutoff {
        var i :| 0 <= i < |b[id]| && b[id][i] == s;
        assert AtOrAfter(cutoff)(b[id][i]) && i in places;
      }
    }
  }

  /** What one connector contributes to the fleet value: all its samples to the CPU pool, or its own
      reduced value to the throughput mean. */
  function Part(b: Buffers, id: Id, signal: Signal, cutoff: int, agg: Agg): seq<real>
    requires agg.Pct? ==> agg.nn <= 100
  {
    var own := Own(b, id, signal, cutoff);
    if signal == Cpu then own
    else
      match Reduce(own, agg)
      case None => []
      case Some(v) => [v]
  }

  function Parts(b: Buffers, order: seq<Id>, signal: Signal, cutoff: int, agg: Agg): seq<real>
    requires agg.Pct? ==> agg.nn <= 100
  {
    if order == [] then []
    else Parts(b, order[..|order| - 1], signal, cutoff, agg) + Part(b, order[|order| - 1], signal, cutoff, agg)
  }

  /** CPU reduces the pool of all samples; throughput averages the connectors' reduced values. */
  function FleetValue(b: Buffers, order: seq<Id>, signal: Signal, cutoff: int, agg: Agg): Option<real>
    requires agg.Pct? ==> agg.nn <= 100
  {
    Reduce(Parts(b, order, signal, cutoff, agg), if signal == Cpu then agg else Avg)
  }

  /** Each connector's own reduced value; one without samples of the signal has none. */
  function OwnValues(b: Buffers, ids: set<Id>, signal: Signal, cutoff: int, agg: Agg): map<Id, real>
    requires agg.Pct? ==> agg.nn <= 100
  {
    map id | id in ids && Own(b, id, signal, cutoff) != [] :: Reduce(Own(b, id, signal, cutoff), agg).value
  }

  // --- the order of the connectors does not matter ---------------------------------

  /** `order` lists each of `ids` once. */
  ghost predicate Enumerates(order: seq<Id>, ids: set<Id>) { Distinct(order) && Elements(order) == ids }

  lemma PartsAppend(b: Buffers, order: seq<Id>, x: Id, signal: Signal, cutoff: int, agg: Agg)
    requires agg.Pct? ==> agg.nn <= 100
    ensures Parts(b, order + [x], signal, cutoff, agg) ==
              Parts(b, order, signal, cutoff, agg) + Part(b, x, signal, cutoff, agg)
  {
    assert (order + [x])[..|order|] == order;
  }

  lemma MoveLast(all: seq<real>, rest: seq<real>, x: seq<real>, last: seq<real>)
    requires multiset(all) == multiset(rest) + multiset(x)
    ensures multiset(all + last) == multiset(rest + last) + multiset(x)
  {
  }

  lemma {:induction false} TakeOut(b: Buffers, order: seq<Id>, x: Id, signal: Signal, cutoff: int, agg: Agg)
    requires Distinct(order) && x in order && (agg.Pct? ==> agg.nn <= 100)
    ensures multiset(Parts(b, order, signal, cutoff, agg)) ==
            multiset(Parts(b, Without(order, x), signal, cutoff, agg)) + multiset(Part(b, x, signal, cutoff, agg))
  {
    var init, last := order[..|order| - 1], order[|order| - 1];
    assert order == init + [last];
    if last == x {
      NotThere(init, x);
    } else {
      TakeOut(b, init, x, signal, cutoff, agg);
      PartsAppend(b, Without(init, x), last, signal, cutoff, agg);
      MoveLast(Parts(b, init, signal, cutoff, agg), Parts(b, Without(init, x), signal, cutoff, agg),
               Part(b, x, signal, cutoff, agg), Part(b, last, signal, cutoff, agg));
    }
  }

  lemma {:induction false} NotThere(s: seq<Id>, x: Id)
    requires x !in s
    ensures Without(s, x) == s
  {
    if s != [] {
      assert s == s[..|s| - 1] + [s[|s| - 1]];
      NotThere(s[..|s| - 1], x);
    }
  }

  lemma NoElements(s: seq<Id>)
    ensures s == [] <==> Elements(s) == {}
  {
    if s != [] {
      assert s[0] in Elements(s);
    }
  }

  lemma SplitElements(one: seq<Id>, two: seq<Id>)
    requires one != [] && Distinct(one) && Elements(one) == Elements(two)
    ensures one[|one| - 1] in two && Elements(one[..|one| - 1]) == Elements(Without(two, one[|one| - 1]))
  {
    var init, x := one[..|one| - 1], one[|one| - 1];
    assert one == init + [x];
    assert forall y :: y in one <==> y in Elements(one);
    assert forall y :: y in two <==> y in Elements(two);
    assert x !in init;
  }

  lemma {:induction false} AnyOrder(b: Buffers, one: seq<Id>, two: seq<Id>, signal: Signal, cutoff: int, agg: Agg)
    requires Distinct(one) && Distinct(two) && Elements(one) == Elements(two) && (agg.Pct? ==> agg.nn <= 100)
    ensures multiset(Parts(b, one, signal, cutoff, agg)) == multiset(Parts(b, two, signal, cutoff, agg))
  {
    if one == [] {
      NoElements(one);
      NoElements(two);
    } else {
      var init, x := one[..|one| - 1], one[|one| - 1];
      SplitElements(one, two);
      TakeOut(b, two, x, signal, cutoff, agg);
      WithoutDistinct(two, x);
      AnyOrder(b, init, Without(two, x), signal, cutoff, agg);
    }
  }

  /** The fleet value does not depend on the order in which the connectors are visited. */
  lemma FleetValueAnyOrder(b: Buffers, one: seq<Id>, two: seq<Id>, signal: Signal, cutoff: int, agg: Agg)
    requires Distinct(one) && Distinct(two) && Elements(one) == Elements(two) && (agg.Pct? ==> agg.nn <= 100)
    ensures FleetValue(b, one, signal, cutoff, agg) == FleetValue(b, two, signal, cutoff, agg)
  {
    AnyOrder(b, one, two, signal, cutoff, agg);
    ReducePermuted(Parts(b, one, signal, cutoff, agg), Parts(b, two, signal, cutoff, agg),
                   if signal == Cpu then agg else Avg);
  }

  // --- pruning loses nothing a window needs -------------------------------------------

  /** From `horizon` on, every window of the pruned buffers reads as that of the full ones. */
  ghost predicate SameFrom(b: Buffers, full: Buffers, horizon: Option<int>) {
    forall id, signal, cutoff :: (horizon.Some? ==> horizon.value <= cutoff) ==>
      Own(b, id, signal, cutoff) == Own(full, id, signal, cutoff)
  }

  lemma WindowAppend(samples: seq<Sample>, s: Sample, signal: Signal, cutoff: int)
    ensures Windowed(samples + [s], signal, cutoff) ==
            if s.ts >= cutoff && Value(s, signal).Some?
            then Windowed(samples, signal, cutoff) + [Value(s, signal).value]
            else Windowed(samples, signal, cutoff)
  {
    assert (samples + [s])[..|samples|] == samples;
  }

  lemma {:induction false} KeptWindow(samples: seq<Sample>, earliest: int, signal: Signal, cutoff: int)
    requires earliest <= cutoff
    ensures Windowed(Kept(samples, earliest), signal, cutoff) == Windowed(samples, signal, cutoff)
  {
    if samples != [] {
      var init, s := samples[..|samples| - 1], samples[|samples| - 1];
      KeptWindow(init, earliest, signal, cutoff);
      WindowAppend(Kept(init, earliest), s, signal, cutoff);
    }
  }

  function Later(horizon: Option<int>, cutoff: int): Option<int> {
    if horizon.None? then Some(cutoff) else Some(Max(horizon.value, cutoff))
  }

  lemma PruneSame(b: Buffers, full: Buffers, horizon: Option<int>, at: int)
    requires SameFrom(b, full, horizon)
    ensures SameFrom(Pruned(b, at), full, Later(horizon, at))
  {
    forall id, signal, cutoff | Later(horizon, at).value <= cutoff
      ensures Own(Pruned(b, at), id, signal, cutoff) == Own(full, id, signal, cutoff)
    {
      KeptWindow(BufferOf(b, id), at, signal, cutoff);
      assert Own(b, id, signal, cutoff) == Own(full, id, signal, cutoff);
    }
  }

  lemma AddedOwn(b: Buffers, s: Sample, id: Id, signal: Signal, cutoff: int)
    ensures Own(Added(b, s), id, signal, cutoff) ==
            if id == s.id && s.ts >= cutoff && Value(s, signal).Some?
            then Own(b, id, signal, cutoff) + [Value(s, signal).value]
            else Own(b, id, signal, cutoff)
  {
    WindowAppend(BufferOf(b, s.id), s, signal, cutoff);
  }

  lemma AddSame(b: Buffers, full: Buffers, horizon: Option<int>, s: Sample)
    requires SameFrom(b, full, horizon)
    ensures SameFrom(Added(b, s), Added(full, s), horizon)
  {
    forall id, signal, cutoff | horizon.Some? ==> horizon.value <= cutoff
      ensures Own(Added(b, s), id, signal, cutoff) == Own(Added(full, s), id, signal, cutoff)
    {
      assert Own(b, id, signal, cutoff) == Own(full, id, signal, cutoff);
      AddedOwn(b, s, id, signal, cutoff);
      AddedOwn(full, s, id, signal, cutoff);
    }
  }

  lemma {:induction false} IngestSame(b: Buffers, full: Buffers, horizon: Option<int>, batch: seq<Sample>)
    requires SameFrom(b, full, horizon)
    ensures SameFrom(Ingested(b, batch), Ingested(full, batch), horizon)
  {
    if batch != [] {
      var init := batch[..|batch| - 1];
      IngestSame(b, full, horizon, init);
      AddSame(Ingested(b, init), Ingested(full, init), horizon, batch[|batch| - 1]);
    }
  }

  lemma {:induction false} SameParts(b: Buffers, full: Buffers, order: seq<Id>, signal: Signal, cutoff: int, agg: Agg)
    requires agg.Pct? ==> agg.nn <= 100
    requires forall id :: Own(b, id, signal, cutoff) == Own(full, id, signal, cutoff)
    ensures Parts(b, order, signal, cutoff, agg) == Parts(full, order, signal, cutoff, agg)
  {
    if order != [] {
      SameParts(b, full, order[..|order| - 1], signal, cutoff, agg);
    }
  }

  /** One use of the aggregator between reductions. */
  datatype Op = Ingest(batch: seq<Sample>) | Prune(now: int)

  function Done(b: Buffers, op: Op, retention: int, pruning: bool): Buffers {
    match op
    case Ingest(batch) => Ingested(b, batch)
    case Prune(now) => if pruning then Pruned(b, now - retention) else b
  }

  /** The buffers after a history of operations, with pruning or as if nothing were ever pruned. */
  function After(ops: seq<Op>, retention: int, pruning: bool): Buffers {
    if ops == [] then map[] else Done(After(ops[..|ops| - 1], retention, pruning), ops[|ops| - 1], retention, pruning)
  }

  function NextHorizon(h: Option<int>, op: Op, retention: int): Option<int> {
    if op.Prune? then Later(h, op.now - retention) else h
  }

  /** The latest cutoff the history pruned at. */
  function Horizon(ops: seq<Op>, retention: int): Option<int> {
    if ops == [] then None else NextHorizon(Horizon(ops[..|ops| - 1], retention), ops[|ops| - 1], retention)
  }

  lemma OpSame(b: Buffers, full: Buffers, h: Option<int>, op: Op, retention: int)
    requires SameFrom(b, full, h)
    ensures SameFrom(Done(b, op, retention, true), Done(full, op, retention, false), NextHorizon(h, op, retention))
  {
    match op
    case Ingest(batch) => IngestSame(b, full, h, batch);
    case Prune(now) => PruneSame(b, full, h, now - retention);
  }

  lemma {:induction false} SameAfter(ops: seq<Op>, retention: int)
    ensures SameFrom(After(ops, retention, true), After(ops, retention, false), Horizon(ops, retention))
  {
    if ops != [] {
      var init := ops[..|ops| - 1];
      SameAfter(init, retention);
      OpSame(After(init, retention, true), After(init, retention, false), Horizon(init, retention), ops[|ops| - 1],
             retention);
    }
  }

  lemma {:induction false} HorizonBound(ops: seq<Op>, retention: int, now: int)
    requires forall op :: op in ops && op.Prune? ==> op.now <= now
    ensures Horizon(ops, retention).Some? ==> Horizon(ops, retention).value <= now - retention
  {
    if ops != [] {
      HorizonBound(ops[..|ops| - 1], retention, now);
      assert ops[|ops| - 1] in ops;
    }
  }

  /** The window from `cutoff` to `now` is no longer than the retention, and no prune was later than `now`. */
  ghost predicate Retained(ops: seq<Op>, retention: int, cutoff: int, now: int) {
    now - retention <= cutoff && forall op :: op in ops && op.Prune? ==> op.now <= now
  }

  /** `b` is what the history leaves in the pruned buffers, `full` what it would leave without pruning. */
  ghost predicate Histories(ops: seq<Op>, retention: int, b: Buffers, full: Buffers) {
    b == After(ops, retention, true) && full == After(ops, retention, false)
  }

  lemma SameHistories(ops: seq<Op>, retention: int, cutoff: int, now: int, b: Buffers, full: Buffers)
    requires Histories(ops, retention, b, full) && Retained(ops, retention, cutoff, now)
    ensures SameAt(b, full, cutoff)
  {
    HorizonBound(ops, retention, now);
    SameAfter(ops, retention);
  }

  /** Windows that start at `cutoff` read alike. */
  ghost predicate SameAt(b: Buffers, full: Buffers, cutoff: int) {
    forall id, signal :: Own(b, id, signal, cutoff) == Own(full, id, signal, cutoff)
  }

  /** After any history of ingests and prunes at times up to now, with the window no longer than the
      retention, the fleet value read on the pruned buffers is that of the full, unpruned history. */
  lemma PruningKeepsFleetValue(ops: seq<Op>, retention: int, order: seq<Id>, signal: Signal, cutoff: int, agg: Agg,
                               now: int, b: Buffers, full: Buffers)
    requires Histories(ops, retention, b, full) && Retained(ops, retention, cutoff, now) && (agg.Pct? ==> agg.nn <= 100)
    ensures FleetValue(b, order, signal, cutoff, agg) == FleetValue(full, order, signal, cutoff, agg)
  {
    SameHistories(ops, retention, cutoff, now, b, full);
    SameReadings(b, full, order, signal, cutoff, agg);
  }

  /** So are the connectors' own values. */
  lemma PruningKeepsOwnValues(ops: seq<Op>, retention: int, ids: set<Id>, signal: Signal, cutoff: int, agg: Agg,
                              now: int, b: Buffers, full: Buffers)
    requires Histories(ops, retention, b, full) && Retained(ops, retention, cutoff, now) && (agg.Pct? ==> agg.nn <= 100)
    ensures OwnValues(b, ids, signal, cutoff, agg) == OwnValues(full, ids, signal, cutoff, agg)
  {
    SameHistories(ops, retention, cutoff, now, b, full);
    SameOwn(b, full, ids, signal, cutoff, agg);
  }

  lemma SameReadings(b: Buffers, full: Buffers, order: seq<Id>, signal: Signal, cutoff: int, agg: Agg)
    requires SameAt(b, full, cutoff) && (agg.Pct? ==> agg.nn <= 100)
    ensures FleetValue(b, order, signal, cutoff, agg) == FleetValue(full, order, signal, cutoff, agg)
  {
    SameParts(b, full, order, signal, cutoff, agg);
  }

  lemma SameOwn(b: Buffers, full: Buffers, ids: set<Id>, signal: Signal, cutoff: int, agg: Agg)
    requires SameAt(b, full, cutoff) && (agg.Pct? ==> agg.nn <= 100)
    ensures OwnValues(b, ids, signal, cutoff, agg) == OwnValues(full, ids, signal, cutoff, agg)
  {
  }

  // --- one connector at a time -----------------------------------------------------------

  /** Pruned except for the connectors still to do. */
  function PrunedBut(b: Buffers, todo: set<Id>, cutoff: int): Buffers {
    map id | id in b && (id in todo || Kept(b[id], cutoff) != []) :: if id in todo then b[id] else Kept(b[id], cutoff)
  }

  lemma PruneOne(b: Buffers, todo: set<Id>, id: Id, cutoff: int)
    requires id in todo && id in b
    ensures var (m, kept) := (PrunedBut(b, todo, cutoff), Kept(b[id], cutoff));
            && id in m && m[id] == b[id]
            && PrunedBut(b, todo - {id}, cutoff) == if kept != [] then m[id := kept] else m - {id}
  {
    var (m, kept) := (PrunedBut(b, todo, cutoff), Kept(b[id], cutoff));
    var v := PrunedBut(b, todo - {id}, cutoff);
    var w := if kept != [] then m[id := kept] else m - {id};
    assert v.Keys == w.Keys;
  }

  // --- the object ----------------------------------------------------------------------

  class Aggregator {
    const retention: int
    var samples: Buffers
    /** What was done so far. */
    ghost var ops: seq<Op>

    /** The buffers are those of the operations so far. */
    ghost predicate Valid()
      reads this
    {
      samples == After(ops, retention, true)
    }

    constructor (retention: int)
      ensures Valid() && ops == [] && samples == map[] && this.retention == retention
    {
      this.retention := retention;
      samples := map[];
      ops := [];
    }

    method Ingest(batch: seq<Sample>)
      requires Valid()
      modifies this
      ensures Valid() && ops == old(ops) + [Op.Ingest(batch)]
      ensures samples == Ingested(old(samples), batch)
    {
      for i := 0 to |batch|
        invariant samples == Ingested(old(samples), batch[..i]) && ops == old(ops)
      {
        assert batch[..i + 1][..i] == batch[..i];
        var s := batch[i];
        samples := samples[s.id := (if s.id in samples then samples[s.id] else []) + [s]];
      }
      assert batch[..|batch|] == batch;
      ops := ops + [Op.Ingest(batch)];
      assert ops[..|ops| - 1] == old(ops);
    }

    method Prune(now: int)
      requires Valid()
      modifies this
      ensures Valid() && ops == old(ops) + [Op.Prune(now)]
      ensures samples == Pruned(old(samples), now - retention)
    {
      var cutoff := now - retention;
      var todo := samples.Keys;
      while todo != {}
        invariant ops == old(ops) && todo <= old(samples).Keys
        invariant samples == PrunedBut(old(samples), todo, cutoff)
        decreases todo
      {
        var id :| id in todo;
        PruneOne(old(samples), todo, id, cutoff);
        var kept := Kept(samples[id], cutoff);
        if kept != [] {
          samples := samples[id := kept];
        } else {
          samples := samples - {id};
        }
        todo := todo - {id};
      }
      assert PrunedBut(old(samples), {}, cutoff) == Pruned(old(samples), cutoff);
      ops := ops + [Op.Prune(now)];
      assert ops[..|ops| - 1] == old(ops);
    }

    /** Gathers what each connector contributes, in some order. */
    method Gather(ids: set<Id>, signal: Signal, cutoff: int, agg: Agg) returns (values: seq<real>, ghost seen: seq<Id>)
      requires agg.Pct? ==> agg.nn <= 100
      ensures Enumerates(seen, ids) && values == Parts(samples, seen, signal, cutoff, agg)
    {
      var b, todo := samples, ids;
      values, seen := [], [];
      while todo != {}
        invariant Partly(seen, todo, ids)
        invariant values == Parts(b, seen, signal, cutoff, agg)
        decreases todo
      {
        var id :| id in todo;
        PartsAppend(b, seen, id, signal, cutoff, agg);
        OneSeen(seen, todo, ids, id);
        values := values + Part(b, id, signal, cutoff, agg);
        seen, todo := seen + [id], todo - {id};
      }
    }

    /** One fleet value, whatever the order the connectors are visited in. */
    method Reduce(ids: seq<Id>, signal: Signal, window: int, agg: Agg, now: int) returns (r: Option<real>)
      requires agg.Pct? ==> agg.nn <= 100
      ensures forall order :: Enumerates(order, Elements(ids)) ==>
                r == FleetValue(samples, order, signal, now - window, agg)
    {
      ghost var seen;
      r, seen := ReduceGathered(Elements(ids), signal, now - window, agg);
      AnyEnumeration(samples, seen, Elements(ids), signal, now - window, agg, r);
    }

    method ReduceGathered(ids: set<Id>, signal: Signal, cutoff: int, agg: Agg)
      returns (r: Option<real>, ghost seen: seq<Id>)
      requires agg.Pct? ==> agg.nn <= 100
      ensures Enumerates(seen, ids) && r == FleetValue(samples, seen, signal, cutoff, agg)
    {
      var values;
      values, seen := Gather(ids, signal, cutoff, agg);
      r := Reductions.Reduce(values, if signal == Cpu then agg else Avg);
    }

    /** Each connector's own value, and nothing for one without samples of the signal. */
    method ReducePerConnector(ids: seq<Id>, signal: Signal, window: int, agg: Agg, now: int)
      returns (result: map<Id, real>)
      requires agg.Pct? ==> agg.nn <= 100
      ensures result == OwnValues(samples, Elements(ids), signal, now - window, agg)
    {
      result := ReduceEach(samples, Elements(ids), signal, now - window, agg);
      AllReduced(result, samples, Elements(ids), signal, now - window, agg);
    }

    static method ReduceEach(b: Buffers, ids: set<Id>, signal: Signal, cutoff: int, agg: Agg)
      returns (result: map<Id, real>)
      requires agg.Pct? ==> agg.nn <= 100
      ensures ReducedBut(result, b, ids, {}, signal, cutoff, agg)
    {
      var todo := ids;
      result := map[];
      while todo != {}
        invariant todo <= ids
        invariant ReducedBut(result, b, ids, todo, signal, cutoff, agg)
        decreases todo
      {
        var id :| id in todo;
        OneReduced(result, b, ids, todo, id, signal, cutoff, agg);
        var reduced := Reductions.Reduce(Own(b, id, signal, cutoff), agg);
        if reduced.Some? {
          result := result[id := reduced.value];
        }
        todo := todo - {id};
      }
    }
  }

  /** `seen` lists once each of `ids` that is no longer to do. */
  ghost predicate Partly(seen: seq<Id>, todo: set<Id>, ids: set<Id>) {
    Distinct(seen) && Elements(seen) !! todo && Elements(seen) + todo == ids
  }

  lemma OneSeen(seen: seq<Id>, todo: set<Id>, ids: set<Id>, id: Id)
    requires Partly(seen, todo, ids) && id in todo
    ensures Partly(seen + [id], todo - {id}, ids)
  {
    assert id !in Elements(seen);
    assert Elements(seen + [id]) == Elements(seen) + {id};
  }

  lemma AnyEnumeration(b: Buffers, seen: seq<Id>, ids: set<Id>, signal: Signal, cutoff: int, agg: Agg, r: Option<real>)
    requires Enumerates(seen, ids) && (agg.Pct? ==> agg.nn <= 100) && r == FleetValue(b, seen, signal, cutoff, agg)
    ensures forall order :: Enumerates(order, ids) ==> r == FleetValue(b, order, signal, cutoff, agg)
  {
    forall order | Enumerates(order, ids)
      ensures r == FleetValue(b, order, signal, cutoff, agg)
    {
      FleetValueAnyOrder(b, seen, order, signal, cutoff, agg);
    }
  }

  /** The own values of the connectors that are no longer to do. */
  ghost predicate ReducedBut(m: map<Id, real>, b: Buffers, ids: set<Id>, todo: set<Id>, signal: Signal, cutoff: int,
                             agg: Agg)
    requires agg.Pct? ==> agg.nn <= 100
  {
    && (forall id :: id in m <==> id in ids && id !in todo && Own(b, id, signal, cutoff) != [])
    && (forall id :: id in m ==> m[id] == Reduce(Own(b, id, signal, cutoff), agg).value)
  }

  lemma OneReduced(m: map<Id, real>, b: Buffers, ids: set<Id>, todo: set<Id>, id: Id, signal: Signal, cutoff: int,
                   agg: Agg)
    requires (agg.Pct? ==> agg.nn <= 100) && id in todo && todo <= ids
             && ReducedBut(m, b, ids, todo, signal, cutoff, agg)
    ensures var r := Reduce(Own(b, id, signal, cutoff), agg);
            ReducedBut(if r.Some? then m[id := r.value] else m, b, ids, todo - {id}, signal, cutoff, agg)
  {
  }

  lemma AllReduced(m: map<Id, real>, b: Buffers, ids: set<Id>, signal: Signal, cutoff: int, agg: Agg)
    requires (agg.Pct? ==> agg.nn <= 100) && ReducedBut(m, b, ids, {}, signal, cutoff, agg)
    ensures m == OwnValues(b, ids, signal, cutoff, agg)
  {
  }
}
