/** The debounce aggregator for command results (src/state/command_results.rs): one batch per request id, a
    generation that every merge bumps, and timers that flush only what is still current. */
module CommandResults {
  import opened Basics

  /** What one client answered. */
  datatype Outcome = Outcome(exitCode: int, stdout: string, stderr: string, durationMs: u64, senderCtx: Option<string>)

  datatype Batch<T> = Batch(group: string, byClient: map<string, T>)

  type Rid = string

  datatype Aggregator<T> = Aggregator(batches: map<Rid, Batch<T>>, generations: map<Rid, nat>)

  function Empty<T>(): Aggregator<T> {
    Aggregator(map[], map[])
  }

  /** A batch keeps the first group name that says something. */
  function GroupOf(known: string, group: string): string {
    if known == "" || known == "unknown" then group else known
  }

  function NextGeneration<T>(a: Aggregator<T>, rid: Rid): nat {
    (if rid in a.generations then a.generations[rid] else 0) + 1
  }

  function Merge<T>(a: Aggregator<T>, rid: Rid, group: string, client: string, x: T): Aggregator<T> {
    var batch := if rid in a.batches then a.batches[rid] else Batch("", map[]);
    Aggregator(a.batches[rid := Batch(GroupOf(batch.group, group), batch.byClient[client := x])],
               a.generations[rid := NextGeneration(a, rid)])
  }

  predicate IsCurrent<T>(a: Aggregator<T>, rid: Rid, generation: nat) {
    rid in a.generations && a.generations[rid] == generation
  }

  function Without<T>(a: Aggregator<T>, rid: Rid): Aggregator<T> {
    Aggregator(a.batches - {rid}, a.generations - {rid})
  }

  /** One client's answer on its way into a batch. */
  datatype Arrival<T> = Arrival(group: string, client: string, result: T)

  function MergeAll<T>(a: Aggregator<T>, rid: Rid, arrivals: seq<Arrival<T>>): Aggregator<T> {
    if arrivals == [] then a
    else
      var n := |arrivals| - 1;
      Merge(MergeAll(a, rid, arrivals[..n]), rid, arrivals[n].group, arrivals[n].client, arrivals[n].result)
  }

  predicate SaysSomething(group: string) {
    group != "" && group != "unknown"
  }

  /** The k-th arrival is the client's latest, with this result. */
  ghost predicate IsLatest<T>(arrivals: seq<Arrival<T>>, k: int, client: string, x: T) {
    && 0 <= k < |arrivals| && arrivals[k].client == client && arrivals[k].result == x
    && forall j :: k < j < |arrivals| ==> arrivals[j].client != client
  }

  /** The k-th arrival is the first whose group name says something, or the last one if none does. */
  predicate Names<T>(arrivals: seq<Arrival<T>>, k: nat) {
    && k < |arrivals|
    && (forall j :: 0 <= j < k ==> !SaysSomething(arrivals[j].group))
    && (k < |arrivals| - 1 ==> SaysSomething(arrivals[k].group))
  }

  lemma {:induction false} BatchIsCurrent<T>(a: Aggregator<T>, rid: Rid, arrivals: seq<Arrival<T>>)
    requires rid !in a.batches && rid !in a.generations && arrivals != []
    ensures var b := MergeAll(a, rid, arrivals);
            && rid in b.batches && rid in b.generations && b.generations[rid] == |arrivals|
            && b.batches - {rid} == a.batches && b.generations - {rid} == a.generations
  {
    if |arrivals| > 1 { BatchIsCurrent(a, rid, arrivals[..|arrivals| - 1]); }
  }

  lemma {:induction false} BatchResults<T>(a: Aggregator<T>, rid: Rid, arrivals: seq<Arrival<T>>, client: string)
    requires rid !in a.batches && rid !in a.generations && arrivals != [] && rid in MergeAll(a, rid, arrivals).batches
    ensures var held := MergeAll(a, rid, arrivals).batches[rid].byClient;
            if client in held then exists k :: IsLatest(arrivals, k, client, held[client])
            else forall j :: 0 <= j < |arrivals| ==> arrivals[j].client != client
  {
    hide GroupOf;
    var n := |arrivals| - 1;
    if arrivals[n].client == client {
      assert IsLatest(arrivals, n, client, arrivals[n].result);
    } else if n > 0 {
      BatchIsCurrent(a, rid, arrivals[..n]);
      BatchResults(a, rid, arrivals[..n], client);
      var held := MergeAll(a, rid, arrivals[..n]).batches[rid].byClient;
      if client in held {
        var k :| IsLatest(arrivals[..n], k, client, held[client]);
        assert arrivals[..n][k] == arrivals[k] && IsLatest(arrivals, k, client, held[client]);
      }
    }
  }

  lemma {:induction false} BatchGroup<T>(a: Aggregator<T>, rid: Rid, arrivals: seq<Arrival<T>>, k: nat)
    requires rid !in a.batches && rid !in a.generations && Names(arrivals, k)
    requires rid in MergeAll(a, rid, arrivals).batches
    ensures MergeAll(a, rid, arrivals).batches[rid].group == arrivals[k].group
  {
    var n := |arrivals| - 1;
    if n > 0 {
      var before := arrivals[..n];
      BatchIsCurrent(a, rid, before);
      assert Names(before, if k < n then k else n - 1);
      BatchGroup(a, rid, before, if k < n then k else n - 1);
    }
  }

  /** A batch after any number of arrivals: each client's latest result and nothing else, under the first group name
      that says something; only the generation of the last arrival is current, so only its timer can print the batch;
      and nothing else has changed. */
  lemma BatchHolds<T>(a: Aggregator<T>, rid: Rid, arrivals: seq<Arrival<T>>, client: string, k: nat, g: nat)
    requires rid !in a.batches && rid !in a.generations && arrivals != []
    ensures var b := MergeAll(a, rid, arrivals);
            && rid in b.batches && (IsCurrent(b, rid, g) <==> g == |arrivals|)
            && b.batches - {rid} == a.batches && b.generations - {rid} == a.generations
            && var batch := b.batches[rid];
               && (Names(arrivals, k) ==> batch.group == arrivals[k].group)
               && (if client in batch.byClient then exists j :: IsLatest(arrivals, j, client, batch.byClient[client])
                   else forall j :: 0 <= j < |arrivals| ==> arrivals[j].client != client)
  {
    BatchIsCurrent(a, rid, arrivals);
    BatchResults(a, rid, arrivals, client);
    if Names(arrivals, k) { BatchGroup(a, rid, arrivals, k); }
  }

  // ---------- the mutable aggregator ----------

  class CommandResultAggregator<T> {
    var batches: map<Rid, Batch<T>>
    var debounceGeneration: map<Rid, nat>

    function State(): Aggregator<T>
      reads this
    {
      Aggregator(batches, debounceGeneration)
    }

    constructor ()
      ensures State() == Empty<T>()
    {
      batches, debounceGeneration := map[], map[];
    }

    method MergeAndBumpGeneration(rid: Rid, group: string, client: string, x: T) returns (generation: nat)
      modifies this
      ensures State() == Merge(old(State()), rid, group, client, x)
      ensures generation == NextGeneration(old(State()), rid) && IsCurrent(State(), rid, generation)
    {
      generation := BumpGeneration(rid);
      var batch := if rid in batches then batches[rid] else Batch("", map[]);
      if batch.group == "" || batch.group == "unknown" {
        batch := batch.(group := group);
      }
      batches := batches[rid := batch.(byClient := batch.byClient[client := x])];
    }

    method BumpGeneration(rid: Rid) returns (generation: nat)
      modifies this`debounceGeneration
      ensures generation == NextGeneration(old(State()), rid)
      ensures debounceGeneration == old(debounceGeneration)[rid := generation]
    {
      if rid !in debounceGeneration {
        debounceGeneration := debounceGeneration[rid := 0];
      }
      debounceGeneration := debounceGeneration[rid := debounceGeneration[rid] + 1];
      generation := debounceGeneration[rid];
    }

    method TakeIfCurrent(rid: Rid, expected: nat) returns (batch: Option<Batch<T>>)
      modifies this
      ensures State() == if IsCurrent(old(State()), rid, expected) then Without(old(State()), rid) else old(State())
      ensures batch == if IsCurrent(old(State()), rid, expected)
              && rid in old(batches) then Some(old(batches)[rid]) else None
    {
      if rid !in debounceGeneration || debounceGeneration[rid] != expected {
        return None;
      }
      debounceGeneration := debounceGeneration - {rid};
      batch := if rid in batches then Some(batches[rid]) else None;
      batches := batches - {rid};
    }

    method TakeBatch(rid: Rid) returns (batch: Batch<T>)
      requires rid in batches
      modifies this
      ensures State() == Without(old(State()), rid) && batch == old(batches)[rid]
    {
      debounceGeneration := debounceGeneration - {rid};
      batch := batches[rid];
      batches := batches - {rid};
    }

    /** Every batch once, in the order the map yields them. */
    method TakeAllBatches() returns (taken: seq<(Rid, Batch<T>)>)
      modifies this
      ensures batches == map[] && debounceGeneration == old(debounceGeneration) - old(batches).Keys
      ensures Listing(taken, old(batches))
    {
      taken := [];
      var keys := batches.Keys;
      ghost var before := State();
      while keys != {}
        invariant keys <= before.batches.Keys && Remaining(before, keys, State())
        invariant Listing(taken, before.batches - keys)
        decreases |keys|
      {
        var k :| k in keys;
        ListingGrows(taken, before.batches, keys, k);
        RemainingShrinks(before, keys, State(), k);
        var batch := TakeBatch(k);
        taken := taken + [(k, batch)];
        keys := keys - {k};
      }
      assert before.batches - keys == before.batches;
    }

    method Reset()
      modifies this
      ensures State() == Empty<T>()
    {
      batches, debounceGeneration := map[], map[];
    }
  }

  /** The pairs list exactly the map's entries, each once. */
  ghost predicate Listing<T>(taken: seq<(Rid, Batch<T>)>, m: map<Rid, Batch<T>>) {
    && (forall i :: 0 <= i < |taken| ==> taken[i].0 in m && m[taken[i].0] == taken[i].1)
    && (forall k :: k in m ==> exists i :: 0 <= i < |taken| && taken[i].0 == k)
    && (forall i, j :: 0 <= i < j < |taken| ==> taken[i].0 != taken[j].0)
  }

  /** What is left when all batches but these have been taken. */
  ghost predicate Remaining<T>(before: Aggregator<T>, keys: set<Rid>, now: Aggregator<T>) {
    && now.batches == before.batches - (before.batches.Keys - keys)
    && now.generations == before.generations - (before.batches.Keys - keys)
  }

  lemma RemainingShrinks<T>(before: Aggregator<T>, keys: set<Rid>, now: Aggregator<T>, k: Rid)
    requires keys <= before.batches.Keys && k in keys && Remaining(before, keys, now)
    ensures k in now.batches && now.batches[k] == before.batches[k] && Remaining(before, keys - {k}, Without(now, k))
  {
    assert before.batches.Keys - (keys - {k}) == (before.batches.Keys - keys) + {k};
  }

  lemma ListingGrows<T>(taken: seq<(Rid, Batch<T>)>, m: map<Rid, Batch<T>>, keys: set<Rid>, k: Rid)
    requires keys <= m.Keys && k in keys && Listing(taken, m - keys)
    ensures Listing(taken + [(k, m[k])], m - (keys - {k}))
  {
    var longer := taken + [(k, m[k])];
    forall r | r in m - (keys - {k})
      ensures exists i :: 0 <= i < |longer| && longer[i].0 == r
    {
      if r == k {
        assert longer[|taken|].0 == r;
      } else {
        assert r in m - keys;
        var i :| 0 <= i < |taken| && taken[i].0 == r;
        assert longer[i].0 == r;
      }
    }
  }

  // ---------- timers, printing and the fate of every result ----------

  /** A merged result, told apart from all others by its serial number. */
  datatype Result = Result(serial: nat, outcome: Outcome)

  datatype Timer = Timer(rid: Rid, generation: nat)

  datatype Printed = Printed(rid: Rid, batch: Batch<Result>)

  /** What became of a result: waiting in a batch, printed as part of the i-th printed batch, replaced by a later
      result of the same client in the same batch, or discarded by a reset. */
  datatype Fate = Waiting(rid: Rid, client: string) | Shown(index: nat, client: string) | Replaced | Discarded

  datatype Debouncer = Debouncer(
    agg: Aggregator<Result>, timers: multiset<Timer>, printed: seq<Printed>, fates: seq<Fate>)

  datatype Step =
    | Arrive(rid: Rid, group: string, client: string, outcome: Outcome)
    | Fire(timer: Timer)
    | FlushAll(order: seq<(Rid, Batch<Result>)>)
    | Reset

  ghost predicate Possible(d: Debouncer, s: Step) {
    match s
    case Fire(t) => t in d.timers
    case FlushAll(order) => Listing(order, d.agg.batches)
    case _ => true
  }

  /** Merging a result and scheduling its flush. */
  function Arrived(d: Debouncer, rid: Rid, group: string, client: string, outcome: Outcome): Debouncer {
    var serial := |d.fates|;
    var fates := seq(serial,
        s requires 0 <= s < serial => if d.fates[s] == Waiting(rid, client) then Replaced else d.fates[s]);
    Debouncer(Merge(d.agg, rid, group, client, Result(serial, outcome)),
              d.timers + multiset{Timer(rid, NextGeneration(d.agg, rid))},
              d.printed, fates + [Waiting(rid, client)])
  }

  /** One batch printed and gone. */
  function Show(d: Debouncer, rid: Rid): Debouncer
    requires rid in d.agg.batches
  {
    Debouncer(Without(d.agg, rid), d.timers, d.printed + [Printed(rid, d.agg.batches[rid])],
              seq(|d.fates|, s requires 0 <= s < |d.fates| =>
                if d.fates[s].Waiting?
                   && d.fates[s].rid == rid then Shown(|d.printed|, d.fates[s].client) else d.fates[s]))
  }

  function Fired(d: Debouncer, t: Timer): Debouncer {
    var e := d.(timers := d.timers - multiset{t});
    if !IsCurrent(d.agg, t.rid, t.generation) then e
    else if t.rid in d.agg.batches then Show(e, t.rid)
    else e.(agg := Without(d.agg, t.rid))
  }

  /** Flushing everything prints batch after batch; the timers stay. */
  function Flushed(d: Debouncer, order: seq<(Rid, Batch<Result>)>): Debouncer {
    if order == [] then d
    else
      var e := Flushed(d, order[..|order| - 1]);
      var rid := order[|order| - 1].0;
      if rid in e.agg.batches then Show(e, rid) else e
  }

  function WasReset(d: Debouncer): Debouncer {
    Debouncer(Empty(), d.timers, d.printed,
              seq(|d.fates|, s requires 0 <= s < |d.fates| => if d.fates[s].Waiting? then Discarded else d.fates[s]))
  }

  /** Results arriving one after another under one request id. */
  function ArrivedAll(d: Debouncer, rid: Rid, arrivals: seq<Arrival<Outcome>>): Debouncer {
    if arrivals == [] then d
    else
      var n := |arrivals| - 1;
      Arrived(ArrivedAll(d, rid, arrivals[..n]), rid, arrivals[n].group, arrivals[n].client, arrivals[n].result)
  }

  /** The arrivals with their serial numbers. */
  function Numbered(arrivals: seq<Arrival<Outcome>>, first: nat): seq<Arrival<Result>> {
    seq(|arrivals|, i requires 0 <= i < |arrivals| =>
      Arrival(arrivals[i].group, arrivals[i].client, Result(first + i, arrivals[i].result)))
  }

  lemma {:induction false} ArrivedAllMerges(d: Debouncer, rid: Rid, arrivals: seq<Arrival<Outcome>>)
    ensures var e := ArrivedAll(d, rid, arrivals);
            && e.agg == MergeAll(d.agg, rid, Numbered(arrivals, |d.fates|))
            && e.printed == d.printed && |e.fates| == |d.fates| + |arrivals|
            && (arrivals != [] ==> rid in e.agg.generations && Timer(rid, e.agg.generations[rid]) in e.timers)
  {
    if arrivals != [] {
      var n := |arrivals| - 1;
      ArrivedAllMerges(d, rid, arrivals[..n]);
      assert Numbered(arrivals, |d.fates|)[..n] == Numbered(arrivals[..n], |d.fates|);
    }
  }

  /** The debounce: while results keep arriving each earlier timer prints nothing and changes nothing, and the last one
      prints all that has arrived, each client's latest result, as one batch that is then gone. */
  lemma OnlyLastTimerPrints(d: Debouncer, rid: Rid, arrivals: seq<Arrival<Outcome>>, g: nat)
    requires rid !in d.agg.batches && rid !in d.agg.generations && arrivals != []
    ensures var e := ArrivedAll(d, rid, arrivals);
            var fired := Fired(e, Timer(rid, g));
            && e.agg == MergeAll(d.agg, rid, Numbered(arrivals, |d.fates|))
            && e.printed == d.printed && rid in e.agg.batches && Timer(rid, |arrivals|) in e.timers
            && (if g == |arrivals|
                then fired.printed == d.printed + [Printed(rid, e.agg.batches[rid])] && fired.agg == d.agg
                else fired == e.(timers := e.timers - multiset{Timer(rid, g)}))
  {
    hide ArrivedAll, MergeAll;
    ArrivedAllMerges(d, rid, arrivals);
    BatchIsCurrent(d.agg, rid, Numbered(arrivals, |d.fates|));
  }

  ghost function Next(d: Debouncer, s: Step): Debouncer {
    match s
    case Arrive(rid, group, client, outcome) => Arrived(d, rid, group, client, outcome)
    case Fire(t) => Fired(d, t)
    case FlushAll(order) => Flushed(d, order)
    case Reset => WasReset(d)
  }

  const INITIAL := Debouncer(Empty(), multiset{}, [], [])

  ghost predicate IsRun(steps: seq<Step>, states: seq<Debouncer>) {
    && |states| == |steps| + 1 && states[0] == INITIAL
    && forall i :: 0 <= i < |steps| ==> Possible(states[i], steps[i]) && states[i + 1] == Next(states[i], steps[i])
  }

  // ---------- the invariant ----------

  predicate InBatch(d: Debouncer, rid: Rid, client: string) {
    rid in d.agg.batches && client in d.agg.batches[rid].byClient
  }

  predicate InPrint(d: Debouncer, i: nat, client: string) {
    i < |d.printed| && client in d.printed[i].batch.byClient
  }

  /** The timer that will flush the batch is pending. */
  predicate Scheduled(d: Debouncer, rid: Rid)
    requires rid in d.agg.generations
  {
    Timer(rid, d.agg.generations[rid]) in d.timers
  }

  ghost predicate TimersOk(d: Debouncer) {
    && d.agg.batches.Keys == d.agg.generations.Keys
    && forall rid :: rid in d.agg.generations ==> Scheduled(d, rid)
  }

  /** The result in this place of a batch knows that it waits there. */
  predicate WaitsHere(d: Debouncer, rid: Rid, client: string)
    requires InBatch(d, rid, client)
  {
    var s := d.agg.batches[rid].byClient[client].serial;
    s < |d.fates| && d.fates[s] == Waiting(rid, client)
  }

  predicate ShownHere(d: Debouncer, i: nat, client: string)
    requires InPrint(d, i, client)
  {
    var s := d.printed[i].batch.byClient[client].serial;
    s < |d.fates| && d.fates[s] == Shown(i, client)
  }

  /** And a result is where its fate says. */
  predicate Found(d: Debouncer, s: nat)
    requires s < |d.fates|
  {
    match d.fates[s]
    case Waiting(rid, client) => InBatch(d, rid, client) && d.agg.batches[rid].byClient[client].serial == s
    case Shown(i, client) => InPrint(d, i, client) && d.printed[i].batch.byClient[client].serial == s
    case Replaced | Discarded => true
  }

  ghost predicate FatesOk(d: Debouncer) {
    && (forall rid, client :: InBatch(d, rid, client) ==> WaitsHere(d, rid, client))
    && (forall i: nat, client :: InPrint(d, i, client) ==> ShownHere(d, i, client))
    && (forall s: nat :: s < |d.fates| ==> Found(d, s))
  }

  ghost predicate Inv(d: Debouncer) {
    TimersOk(d) && FatesOk(d)
  }

  lemma ArrivedKeeps(d: Debouncer, rid: Rid, group: string, client: string, outcome: Outcome)
    requires Inv(d)
    ensures Inv(Arrived(d, rid, group, client, outcome))
  {
    var e := Arrived(d, rid, group, client, outcome);
    forall r, c | InBatch(e, r, c)
      ensures WaitsHere(e, r, c)
    {
      if !(r == rid && c == client) {
        assert InBatch(d, r, c) && WaitsHere(d, r, c);
      }
    }
    forall i: nat, c | InPrint(e, i, c)
      ensures ShownHere(e, i, c)
    {
      assert InPrint(d, i, c) && ShownHere(d, i, c);
    }
    forall s: nat | s < |e.fates|
      ensures Found(e, s)
    {
      if s < |d.fates| { assert Found(d, s); }
    }
    assert forall r :: r in d.agg.generations ==> Scheduled(d, r);
  }

  lemma ShowKeepsFates(d: Debouncer, rid: Rid)
    requires FatesOk(d) && rid in d.agg.batches
    ensures FatesOk(Show(d, rid))
  {
    var e := Show(d, rid);
    forall r, c | InBatch(e, r, c)
      ensures WaitsHere(e, r, c)
    {
      assert InBatch(d, r, c) && WaitsHere(d, r, c);
    }
    forall i: nat, c | InPrint(e, i, c)
      ensures ShownHere(e, i, c)
    {
      if i < |d.printed| {
        assert InPrint(d, i, c) && ShownHere(d, i, c);
      } else {
        assert InBatch(d, rid, c) && WaitsHere(d, rid, c);
      }
    }
    forall s: nat | s < |e.fates|
      ensures Found(e, s)
    {
      assert Found(d, s);
    }
  }

  /** Printing a batch leaves every other batch its timer. */
  lemma ShowKeepsTimers(d: Debouncer, rid: Rid)
    requires TimersOk(d) && rid in d.agg.batches
    ensures TimersOk(Show(d, rid))
  {
    forall r | r in Show(d, rid).agg.generations
      ensures Scheduled(Show(d, rid), r)
    {
      assert Scheduled(d, r);
    }
  }

  lemma TimersDoNotMatter(d: Debouncer, e: Debouncer)
    requires FatesOk(d) && e.agg == d.agg && e.printed == d.printed && e.fates == d.fates
    ensures FatesOk(e)
  {
    forall r, c | InBatch(e, r, c)
      ensures WaitsHere(e, r, c)
    {
      assert InBatch(d, r, c) && WaitsHere(d, r, c);
    }
    forall i: nat, c | InPrint(e, i, c)
      ensures ShownHere(e, i, c)
    {
      assert InPrint(d, i, c) && ShownHere(d, i, c);
    }
    forall s: nat | s < |e.fates|
      ensures Found(e, s)
    {
      assert Found(d, s);
    }
  }

  lemma FiredKeeps(d: Debouncer, t: Timer)
    requires Inv(d) && t in d.timers
    ensures Inv(Fired(d, t))
  {
    var e := d.(timers := d.timers - multiset{t});
    TimersDoNotMatter(d, e);
    if IsCurrent(d.agg, t.rid, t.generation) {
      ShowKeepsFates(e, t.rid);
    }
    forall r | r in Fired(d, t).agg.generations
      ensures Scheduled(Fired(d, t), r)
    {
      assert Scheduled(d, r);
      assert Timer(r, d.agg.generations[r]) != t;
    }
  }

  lemma {:induction false} FlushedKeeps(d: Debouncer, order: seq<(Rid, Batch<Result>)>)
    requires Inv(d)
    ensures Inv(Flushed(d, order)) && Flushed(d, order).timers == d.timers
  {
    if order != [] {
      var n := |order| - 1;
      FlushedKeeps(d, order[..n]);
      var e := Flushed(d, order[..n]);
      if order[n].0 in e.agg.batches {
        ShowKeepsFates(e, order[n].0);
        ShowKeepsTimers(e, order[n].0);
      }
    }
  }

  lemma ResetKeeps(d: Debouncer)
    requires Inv(d)
    ensures Inv(WasReset(d))
  {
    var e := WasReset(d);
    forall i: nat, c | InPrint(e, i, c)
      ensures ShownHere(e, i, c)
    {
      assert InPrint(d, i, c) && ShownHere(d, i, c);
    }
    forall s: nat | s < |e.fates|
      ensures Found(e, s)
    {
      assert Found(d, s);
    }
  }

  lemma StepKeeps(d: Debouncer, s: Step)
    requires Inv(d) && Possible(d, s)
    ensures Inv(Next(d, s))
  {
    match s
    case Arrive(rid, group, client, outcome) => ArrivedKeeps(d, rid, group, client, outcome);
    case Fire(t) => FiredKeeps(d, t);
    case FlushAll(order) => FlushedKeeps(d, order);
    case Reset => ResetKeeps(d);
  }

  lemma {:induction false} RunsKeep(steps: seq<Step>, states: seq<Debouncer>, n: nat)
    requires IsRun(steps, states) && n <= |steps|
    ensures Inv(states[n])
  {
    if n > 0 {
      RunsKeep(steps, states, n - 1);
      StepKeeps(states[n - 1], steps[n - 1]);
    }
  }

  /** No batch is stranded: in every run, however timers fire, every buffered batch has a pending timer that carries its
      current generation, and that timer, fired now, prints the whole batch; without timers nothing is buffered. */
  lemma NothingStranded(steps: seq<Step>, states: seq<Debouncer>, n: nat, rid: Rid)
    requires IsRun(steps, states) && n <= |steps|
    ensures states[n].agg.batches.Keys == states[n].agg.generations.Keys
    ensures rid in states[n].agg.batches ==>
              var t := Timer(rid, states[n].agg.generations[rid]);
              t in states[n].timers
                  && Fired(states[n], t).printed == states[n].printed + [Printed(rid, states[n].agg.batches[rid])]
    ensures states[n].timers == multiset{} ==> rid !in states[n].agg.batches
  {
    RunsKeep(steps, states, n);
    assert rid in states[n].agg.generations ==> Scheduled(states[n], rid);
  }

  /** No result is lost or shown twice: in every run each merged result has exactly one fate; it is in the one place its
      fate names and in no other, and nothing but the places where fates say so holds it. */
  lemma ExactlyOneFate(steps: seq<Step>, states: seq<Debouncer>, n: nat, s: nat)
    requires IsRun(steps, states) && n <= |steps| && s < |states[n].fates|
    ensures var d := states[n];
            && (forall rid, client :: InBatch(d, rid, client) && d.agg.batches[rid].byClient[client].serial == s
                  <==> d.fates[s] == Waiting(rid, client))
            && (forall i: nat, client :: InPrint(d, i, client) && d.printed[i].batch.byClient[client].serial == s
                  <==> d.fates[s] == Shown(i, client))
  {
    RunsKeep(steps, states, n);
    var d := states[n];
    assert Found(d, s);
    forall rid, client | InBatch(d, rid, client) && d.agg.batches[rid].byClient[client].serial == s
      ensures d.fates[s] == Waiting(rid, client)
    {
      assert WaitsHere(d, rid, client);
    }
    forall i: nat, client | InPrint(d, i, client) && d.printed[i].batch.byClient[client].serial == s
      ensures d.fates[s] == Shown(i, client)
    {
      assert ShownHere(d, i, client);
    }
  }

  /** A result is replaced only by a later one of the same client in the same batch, and once shown, replaced or
      discarded it stays so. */
  lemma FatesAreFinal(d: Debouncer, step: Step, s: nat)
    requires Inv(d) && Possible(d, step) && s < |d.fates|
    ensures s < |Next(d, step).fates|
    ensures !d.fates[s].Waiting? ==> Next(d, step).fates[s] == d.fates[s]
    ensures d.fates[s].Waiting? && Next(d, step).fates[s] == Replaced ==>
              step.Arrive? && step.rid == d.fates[s].rid && step.client == d.fates[s].client
    ensures d.fates[s].Waiting? && Next(d, step).fates[s] == Discarded ==> step.Reset?
  {
    if step.FlushAll? { FlushedFates(d, step.order, s); }
  }

  lemma {:induction false} FlushedFates(d: Debouncer, order: seq<(Rid, Batch<Result>)>, s: nat)
    requires s < |d.fates|
    ensures |Flushed(d, order).fates| == |d.fates|
    ensures Flushed(d, order).fates[s] == d.fates[s] || (d.fates[s].Waiting? && Flushed(d, order).fates[s].Shown?)
  {
    if order != [] {
      FlushedFates(d, order[..|order| - 1], s);
    }
  }

  function KeysOf(order: seq<(Rid, Batch<Result>)>): set<Rid> {
    set i | 0 <= i < |order| :: order[i].0
  }

  function Prints(order: seq<(Rid, Batch<Result>)>): (ps: seq<Printed>)
    ensures |ps| == |order|
  {
    seq(|order|, i requires 0 <= i < |order| => Printed(order[i].0, order[i].1))
  }

  /** Everything in the listing up to k has been printed and is gone. */
  ghost predicate PartFlushed(d: Debouncer, order: seq<(Rid, Batch<Result>)>, k: nat, e: Debouncer)
    requires k <= |order|
  {
    && e.agg.batches == d.agg.batches - KeysOf(order[..k])
    && e.agg.generations == d.agg.generations - KeysOf(order[..k])
    && e.printed == d.printed + Prints(order[..k])
  }

  lemma PartGrows(d: Debouncer, order: seq<(Rid, Batch<Result>)>, k: nat, e: Debouncer)
    requires Listing(order, d.agg.batches) && k < |order| && PartFlushed(d, order, k, e)
    ensures order[k].0 in e.agg.batches && PartFlushed(d, order, k + 1, Show(e, order[k].0))
  {
    assert order[k].0 !in KeysOf(order[..k]);
    assert KeysOf(order[..k + 1]) == KeysOf(order[..k]) + {order[k].0};
    assert Prints(order[..k + 1]) == Prints(order[..k]) + [Printed(order[k].0, order[k].1)];
  }

  lemma FlushedMore(d: Debouncer, order: seq<(Rid, Batch<Result>)>, k: nat)
    requires k < |order| && order[k].0 in Flushed(d, order[..k]).agg.batches
    ensures Flushed(d, order[..k + 1]) == Show(Flushed(d, order[..k]), order[k].0)
  {
    hide Show;
    assert order[..k + 1][..k] == order[..k];
  }

  lemma {:induction false} FlushedPart(d: Debouncer, order: seq<(Rid, Batch<Result>)>, k: nat)
    requires Listing(order, d.agg.batches) && k <= |order|
    ensures PartFlushed(d, order, k, Flushed(d, order[..k]))
  {
    if k > 0 {
      hide Show, KeysOf, Prints, PartFlushed, Listing, Flushed;
      FlushedPart(d, order, k - 1);
      PartGrows(d, order, k - 1, Flushed(d, order[..k - 1]));
      FlushedMore(d, order, k - 1);
    }
  }

  /** Flushing before the program exits prints every batch, each once, and leaves nothing behind. */
  lemma FlushShowsAll(d: Debouncer, order: seq<(Rid, Batch<Result>)>)
    requires Inv(d) && Listing(order, d.agg.batches)
    ensures Flushed(d, order).agg == Empty() && Flushed(d, order).printed == d.printed + Prints(order)
  {
    FlushedPart(d, order, |order|);
    assert order[..|order|] == order;
    forall rid | rid in d.agg.batches
      ensures rid in KeysOf(order)
    {
      var i :| 0 <= i < |order| && order[i].0 == rid;
    }
  }
}
