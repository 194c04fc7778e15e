/** The session store under a clock (crates/server/src/session.rs, crates/server/src/ws.rs): connections register, send
    heartbeats, leave and are swept on time. Over every such run a connection that keeps up its heartbeats is never
    swept out, and one that falls silent is out of the store by a fixed bound. */
module SweepRuns {
  import opened Basics
  import opened Heartbeats
  import opened Sessions

  /** The store, the clock at the last event, the number of sweeps so far, and as history the exact time of each
      connection's latest heartbeat, its registration being the first. */
  datatype Timed = Timed(sessions: Sessions, clock: nat, ticks: nat, last: map<Uuid, nat>)

  datatype Event =
    | Register(rec: SessionRecord)
    | Beat(c: Uuid)
    | Leave(c: Uuid)
    | Sweep(order: seq<Uuid>)

  function RemoveAll(s: Sessions, order: seq<Uuid>): Sessions {
    if order == [] then s else RemoveSession(RemoveAll(s, order[..|order| - 1]), order[|order| - 1])
  }

  ghost predicate ListsExpired(timeoutSec: u64, s: Sessions, now: int, order: seq<Uuid>) {
    forall c :: c in order <==> c in s.connections && HasExpired(timeoutSec, now, s.connections[c].lastHeartbeatAt)
  }

  /** An event at a time: no sweep is late, a sweep comes when it is due, and connection ids are fresh. */
  ghost predicate Happens(timeoutSec: u64, start: nat, s: Timed, at: nat, e: Event) {
    && s.clock <= at && Readable(at)
    && (if e.Sweep? then at == Tick(timeoutSec, start, s.ticks) else at <= Tick(timeoutSec, start, s.ticks))
    && (e.Sweep? ==> ListsExpired(timeoutSec, s.sessions, Timestamp(at), e.order))
    && (e.Register? ==> e.rec.connectionId !in s.last && e.rec.lastHeartbeatAt == Timestamp(at))
  }

  /** The store and the history after an event; a refused registration and a heartbeat of a connection that is no longer
      registered change nothing. */
  function After(s: Timed, at: nat, e: Event): Timed {
    var now := s.(clock := at);
    match e
    case Register(rec) =>
      var r := AddSession(s.sessions, rec);
      if r.Ok? then now.(sessions := r.value, last := s.last[rec.connectionId := at]) else now
    case Beat(c) =>
      if c in s.sessions.connections
      then now.(sessions := TouchSession(s.sessions, c, Timestamp(at)), last := s.last[c := at]) else now
    case Leave(c) => now.(sessions := RemoveSession(s.sessions, c))
    case Sweep(order) => now.(sessions := RemoveAll(s.sessions, order), ticks := s.ticks + 1)
  }

  ghost predicate IsTimedRun(timeoutSec: u64, start: nat, times: seq<nat>, events: seq<Event>, states: seq<Timed>) {
    && |times| == |events| && |states| == |events| + 1
    && states[0] == Timed(NO_SESSIONS, start, 0, map[])
    && forall i :: 0 <= i < |events| ==>
         Happens(timeoutSec, start, states[i], times[i], events[i])
             && states[i + 1] == After(states[i], times[i], events[i])
  }

  /** Removing one after the other removes exactly the listed connections. */
  lemma {:induction false} RemoveAllKeeps(s: Sessions, order: seq<Uuid>)
    requires Coherent(s)
    ensures Coherent(RemoveAll(s, order))
    ensures RemoveAll(s, order).connections == map c | c in s.connections && c !in order :: s.connections[c]
  {
    hide Coherent, RemoveSession;
    if order != [] {
      var n := |order| - 1;
      RemoveAllKeeps(s, order[..n]);
      RemoveKeeps(RemoveAll(s, order[..n]), order[n]);
      assert forall c :: c in order <==> c in order[..n] || c == order[n];
    }
  }

  function Bound(timeoutSec: u64): nat {
    (Max(timeoutSec, 1) + 1 + Min(Max(timeoutSec, 1), 30)) * SECOND
  }

  /** The clock stands between the last sweep and the next one. */
  predicate OnTime(timeoutSec: u64, start: nat, s: Timed) {
    && start <= s.clock <= Tick(timeoutSec, start, s.ticks)
    && (s.ticks > 0 ==> Tick(timeoutSec, start, s.ticks - 1) <= s.clock)
  }

  /** Every registered connection's record shows its latest heartbeat in whole seconds, and the next sweep comes before
      the bound on its silence. */
  predicate Fresh(timeoutSec: u64, start: nat, s: Timed, c: Uuid)
    requires c in s.sessions.connections
  {
    && c in s.last && s.last[c] <= s.clock
    && s.sessions.connections[c].lastHeartbeatAt == Timestamp(s.last[c])
    && Tick(timeoutSec, start, s.ticks) < s.last[c] + Bound(timeoutSec)
  }

  ghost predicate InTime(timeoutSec: u64, start: nat, s: Timed) {
    && Coherent(s.sessions) && OnTime(timeoutSec, start, s)
    && forall c :: c in s.sessions.connections ==> Fresh(timeoutSec, start, s, c)
  }

  lemma TickStep(timeoutSec: u64, start: nat, k: nat)
    ensures Tick(timeoutSec, start, k + 1) == Tick(timeoutSec, start, k) + SweepInterval(timeoutSec) * SECOND
  {
  }

  /** A heartbeat now is followed by a sweep within the interval. */
  lemma NextTickSoon(timeoutSec: u64, start: nat, s: Timed, at: nat)
    requires OnTime(timeoutSec, start, s) && s.clock <= at <= Tick(timeoutSec, start, s.ticks)
    ensures Tick(timeoutSec, start, s.ticks) < at + Bound(timeoutSec)
  {
    if s.ticks > 0 { TickStep(timeoutSec, start, s.ticks - 1); }
  }

  /** What a sweep leaves has beaten recently. */
  lemma SpareRecent(timeoutSec: u64, now: nat, last: nat)
    requires timeoutSec <= I64_MAX && last <= now && Readable(now)
    ensures HasExpired(timeoutSec, Timestamp(now), Timestamp(last))
            <==> Timestamp(now) - Timestamp(last) > Max(timeoutSec, 1)
    ensures !HasExpired(timeoutSec, Timestamp(now), Timestamp(last))
            ==> now < last + (Max(timeoutSec, 1) + 1) * SECOND
    ensures now <= last + Max(timeoutSec, 1) * SECOND
            ==> !HasExpired(timeoutSec, Timestamp(now), Timestamp(last))
  {
    if now >= last + (Max(timeoutSec, 1) + 1) * SECOND {
      SecondsPassed(last, now, Max(timeoutSec, 1) + 1);
    }
    if now <= last + Max(timeoutSec, 1) * SECOND {
      SecondsApart(last, now, Max(timeoutSec, 1));
    }
  }

  lemma RegisterInTime(timeoutSec: u64, start: nat, s: Timed, at: nat, e: Event)
    requires InTime(timeoutSec, start, s) && Happens(timeoutSec, start, s, at, e) && e.Register?
    ensures InTime(timeoutSec, start, After(s, at, e))
  {
    hide Coherent, Tick, Bound, AddToGroups;
    NextTickSoon(timeoutSec, start, s, at);
    if AddSession(s.sessions, e.rec).Ok? {
      RegisterKeeps(s.sessions, e.rec);
    }
    assert forall c :: c in s.sessions.connections ==> Fresh(timeoutSec, start, s, c);
  }

  lemma BeatInTime(timeoutSec: u64, start: nat, s: Timed, at: nat, e: Event)
    requires InTime(timeoutSec, start, s) && Happens(timeoutSec, start, s, at, e) && e.Beat?
    ensures InTime(timeoutSec, start, After(s, at, e))
  {
    hide Coherent, Tick, Bound, TouchInGroups, Fresh;
    TouchKeeps(s.sessions, e.c, Timestamp(at));
    var t := After(s, at, e);
    forall c | c in t.sessions.connections
      ensures Fresh(timeoutSec, start, t, c)
    {
      BeatFresh(timeoutSec, start, s, at, e, c);
    }
  }

  lemma BeatFresh(timeoutSec: u64, start: nat, s: Timed, at: nat, e: Event, c: Uuid)
    requires InTime(timeoutSec, start, s) && Happens(timeoutSec, start, s, at, e) && e.Beat?
    requires c in s.sessions.connections
    ensures var t := After(s, at, e);
            c in t.sessions.connections && Fresh(timeoutSec, start, t, c)
  {
    hide Coherent, Tick, Bound, TouchInGroups;
    assert Fresh(timeoutSec, start, s, c);
    NextTickSoon(timeoutSec, start, s, at);
  }

  lemma LeaveInTime(timeoutSec: u64, start: nat, s: Timed, at: nat, e: Event)
    requires InTime(timeoutSec, start, s) && Happens(timeoutSec, start, s, at, e) && e.Leave?
    ensures InTime(timeoutSec, start, After(s, at, e))
  {
    hide Coherent, Tick, Bound, RemoveSession;
    RemoveKeeps(s.sessions, e.c);
    assert forall c :: c in s.sessions.connections ==> Fresh(timeoutSec, start, s, c);
  }

  /** What this sweep spares the next one finds in time. */
  lemma NextSweepSoon(timeoutSec: u64, start: nat, k: nat, last: nat)
    requires Tick(timeoutSec, start, k) < last + (Max(timeoutSec, 1) + 1) * SECOND
    ensures Tick(timeoutSec, start, k + 1) < last + Bound(timeoutSec)
    ensures Tick(timeoutSec, start, k) <= Tick(timeoutSec, start, k + 1)
  {
    TickStep(timeoutSec, start, k);
  }

  lemma SweepInTime(timeoutSec: u64, start: nat, s: Timed, at: nat, e: Event)
    requires timeoutSec <= I64_MAX && InTime(timeoutSec, start, s) && Happens(timeoutSec, start, s, at, e) && e.Sweep?
    ensures InTime(timeoutSec, start, After(s, at, e))
  {
    hide Coherent, RemoveAll, Tick, Bound, HasExpired, Timestamp;
    var t := After(s, at, e);
    RemoveAllKeeps(s.sessions, e.order);
    TickStep(timeoutSec, start, s.ticks);
    forall c | c in t.sessions.connections
      ensures Fresh(timeoutSec, start, t, c)
    {
      assert Fresh(timeoutSec, start, s, c);
      SpareRecent(timeoutSec, at, s.last[c]);
      NextSweepSoon(timeoutSec, start, s.ticks, s.last[c]);
    }
  }

  lemma EventInTime(timeoutSec: u64, start: nat, s: Timed, at: nat, e: Event)
    requires timeoutSec <= I64_MAX && InTime(timeoutSec, start, s) && Happens(timeoutSec, start, s, at, e)
    ensures InTime(timeoutSec, start, After(s, at, e))
  {
    match e
    case Register(_) => RegisterInTime(timeoutSec, start, s, at, e);
    case Beat(_) => BeatInTime(timeoutSec, start, s, at, e);
    case Leave(_) => LeaveInTime(timeoutSec, start, s, at, e);
    case Sweep(_) => SweepInTime(timeoutSec, start, s, at, e);
  }

  lemma {:induction false} RunsInTime(timeoutSec: u64, start: nat, times: seq<nat>, events: seq<Event>,
                                      states: seq<Timed>, n: nat)
    requires timeoutSec <= I64_MAX && IsTimedRun(timeoutSec, start, times, events, states) && n <= |events|
    ensures InTime(timeoutSec, start, states[n])
  {
    if n > 0 {
      RunsInTime(timeoutSec, start, times, events, states, n - 1);
      EventInTime(timeoutSec, start, states[n - 1], times[n - 1], events[n - 1]);
    }
  }

  /** In every run, at every moment up to the next event: a connection still in the store has sent a heartbeat, or
      registered, less than timeout + 1 + interval seconds ago. One that is silent for longer is gone. */
  lemma SilentIsRemoved(timeoutSec: u64, start: nat, times: seq<nat>, events: seq<Event>, states: seq<Timed>, n: nat,
                        c: Uuid)
    requires timeoutSec <= I64_MAX && IsTimedRun(timeoutSec, start, times, events, states) && n <= |events|
    requires c in states[n].sessions.connections
    ensures c in states[n].last
    ensures states[n].clock < states[n].last[c] + Bound(timeoutSec)
    ensures n < |events| ==> times[n] < states[n].last[c] + Bound(timeoutSec)
  {
    RunsInTime(timeoutSec, start, times, events, states, n);
    assert Fresh(timeoutSec, start, states[n], c);
  }

  /** A sweep removes exactly the connections whose latest heartbeat is more than the timeout ago, in whole seconds. */
  lemma SweepExactly(timeoutSec: u64, start: nat, times: seq<nat>, events: seq<Event>, states: seq<Timed>, n: nat,
                     c: Uuid)
    requires timeoutSec <= I64_MAX && IsTimedRun(timeoutSec, start, times, events, states) && n < |events|
    requires events[n].Sweep? && c in states[n].sessions.connections
    ensures c in states[n].last && c in states[n + 1].last && states[n + 1].last[c] == states[n].last[c]
    ensures c !in states[n + 1].sessions.connections
            <==> Timestamp(times[n]) - Timestamp(states[n].last[c]) > Max(timeoutSec, 1)
  {
    RunsInTime(timeoutSec, start, times, events, states, n);
    assert Fresh(timeoutSec, start, states[n], c);
    RemoveAllKeeps(states[n].sessions, events[n].order);
    SpareRecent(timeoutSec, times[n], states[n].last[c]);
  }

  /** From m to n the connection does not leave, and at no event is its latest heartbeat more than the timeout ago. */
  ghost predicate KeepsBeating(timeoutSec: u64, times: seq<nat>, events: seq<Event>, states: seq<Timed>, m: nat,
                               n: nat, c: Uuid)
    requires m <= n <= |events| && |times| == |events| && |states| == |events| + 1
  {
    forall i :: m <= i < n ==>
      && events[i] != Leave(c)
      && (c in states[i].last ==> times[i] <= states[i].last[c] + Max(timeoutSec, 1) * SECOND)
  }

  /** In every run: a connection that keeps up its heartbeats stays in the store under its name. */
  lemma {:induction false} SteadyStays(timeoutSec: u64, start: nat, times: seq<nat>, events: seq<Event>,
                                       states: seq<Timed>, m: nat, n: nat, c: Uuid)
    requires timeoutSec <= I64_MAX && IsTimedRun(timeoutSec, start, times, events, states) && m <= n <= |events|
    requires c in states[m].sessions.connections && KeepsBeating(timeoutSec, times, events, states, m, n, c)
    ensures c in states[n].sessions.connections
    ensures states[n].sessions.connections[c].Endpoint() == states[m].sessions.connections[c].Endpoint()
  {
    if m < n {
      SteadyStays(timeoutSec, start, times, events, states, m, n - 1, c);
      RunsInTime(timeoutSec, start, times, events, states, n - 1);
      OneEventStays(timeoutSec, start, states[n - 1], times[n - 1], events[n - 1], c);
    }
  }

  lemma OneEventStays(timeoutSec: u64, start: nat, s: Timed, at: nat, e: Event, c: Uuid)
    requires timeoutSec <= I64_MAX && InTime(timeoutSec, start, s) && Happens(timeoutSec, start, s, at, e)
    requires c in s.sessions.connections && e != Leave(c)
    requires c in s.last ==> at <= s.last[c] + Max(timeoutSec, 1) * SECOND
    ensures var t := After(s, at, e);
            && c in t.sessions.connections
            && t.sessions.connections[c].Endpoint() == s.sessions.connections[c].Endpoint()
  {
    assert Fresh(timeoutSec, start, s, c);
    if e.Sweep? {
      RemoveAllKeeps(s.sessions, e.order);
      SpareRecent(timeoutSec, at, s.last[c]);
    } else if e.Leave? {
      RemoveKeeps(s.sessions, e.c);
    }
  }
}
