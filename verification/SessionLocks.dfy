/** The session store at the grain of its locks: register, remove and heartbeat are each two
    critical sections, and any number of them may be halfway through at once. */
module SessionLocks {
  import opened Basics
  import opened Sessions

  /** An operation between its two sections. */
  datatype Pending =
    | Registering(rec: SessionRecord)
    | Removing(rec: SessionRecord)
    | Touching(group: string, name: string, now: int)

  /** `used` remembers every connection id ever drawn. */
  datatype LockState = LockState(sessions: Sessions, pending: map<nat, Pending>, used: set<Uuid>)

  datatype Section =
    | BeginRegister(op: nat, rec: SessionRecord)
    | BeginRemove(op: nat, c: Uuid)
    | BeginTouch(op: nat, c: Uuid, now: int)
    | Finish(op: nat)

  const INITIAL := LockState(NO_SESSIONS, map[], {})

  /** Operations have their own identity and a new connection id is a fresh UUID. */
  predicate Possible(st: LockState, s: Section) {
    match s
    case BeginRegister(op, rec) => op !in st.pending && rec.connectionId !in st.used
    case BeginRemove(op, _) => op !in st.pending
    case BeginTouch(op, _, _) => op !in st.pending
    case Finish(op) => op in st.pending
  }

  function Run(st: LockState, s: Section): LockState
    requires Possible(st, s)
  {
    var groups := st.sessions.groups;
    var connections := st.sessions.connections;
    match s
    case BeginRegister(op, rec) =>
      if Holds(groups, rec.groupName, rec.clientName) then st
      else LockState(Sessions(AddToGroups(groups, rec), connections), st.pending[op := Registering(rec)],
          st.used + {rec.connectionId})
    case BeginRemove(op, c) =>
      if c !in connections then st
      else st.(sessions := Sessions(groups, connections - {c}), pending := st.pending[op := Removing(connections[c])])
    case BeginTouch(op, c, now) =>
      if c !in connections then st
      else st.(sessions := Sessions(groups, TouchInConnections(connections, c, now)),
               pending := st.pending[op := Touching(connections[c].groupName, connections[c].clientName, now)])
    case Finish(op) =>
      var rest := st.pending - {op};
      match st.pending[op]
      case Registering(rec) => st.(sessions := Sessions(groups, connections[rec.connectionId := rec]), pending := rest)
      case Removing(rec) => st.(sessions := Sessions(RemoveFromGroups(groups, rec.groupName, rec.clientName),
          connections), pending := rest)
      case Touching(g, n, now) => st.(sessions := Sessions(TouchInGroups(groups, g, n, now), connections),
          pending := rest)
  }

  function RunAll(sections: seq<Section>): Option<LockState> {
    if sections == [] then Some(INITIAL)
    else
      var n := |sections| - 1;
      var before := RunAll(sections[..n]);
      if before.Some? && Possible(before.value, sections[n]) then Some(Run(before.value, sections[n])) else None
  }

  // ---------- the invariant ----------

  predicate Midway(st: LockState, op: nat) {
    op in st.pending && !st.pending[op].Touching?
  }

  /** The name is held for connection c by an operation that is halfway through adding or removing it. */
  predicate HeldMidway(st: LockState, op: nat, g: string, n: string, c: Uuid) {
    && Midway(st, op) && st.pending[op].rec.connectionId == c
    && st.pending[op].rec.groupName == g && st.pending[op].rec.clientName == n
  }

  predicate LiveAs(st: LockState, g: string, n: string, c: Uuid) {
    c in st.sessions.connections && st.sessions.connections[c].groupName == g
        && st.sessions.connections[c].clientName == n
  }

  /** The record sits under its own names, and its connection is live under them or is being added or removed. */
  ghost predicate NameOk(st: LockState, g: string, n: string)
    requires Holds(st.sessions.groups, g, n)
  {
    var rec := st.sessions.groups[g][n];
    && rec.groupName == g && rec.clientName == n && rec.connectionId in st.used
    && (LiveAs(st, g, n, rec.connectionId) || exists op :: HeldMidway(st, op, g, n, rec.connectionId))
  }

  predicate HeldBy(st: LockState, g: string, n: string, c: Uuid) {
    Holds(st.sessions.groups, g, n) && HolderId(st.sessions.groups, g, n) == c
  }

  predicate ConnectionOk(st: LockState, c: Uuid)
    requires c in st.sessions.connections
  {
    var rec := st.sessions.connections[c];
    rec.connectionId == c && c in st.used && HeldBy(st, rec.groupName, rec.clientName, c)
  }

  predicate MidwayOk(st: LockState, op: nat)
    requires Midway(st, op)
  {
    var rec := st.pending[op].rec;
    && HeldBy(st, rec.groupName, rec.clientName, rec.connectionId)
    && rec.connectionId in st.used && rec.connectionId !in st.sessions.connections
  }

  ghost predicate NamesOk(st: LockState) {
    && NoEmptyGroup(st.sessions.groups)
    && forall g, n :: Holds(st.sessions.groups, g, n) ==> NameOk(st, g, n)
  }

  ghost predicate ConnectionsOk(st: LockState) {
    forall c :: c in st.sessions.connections ==> ConnectionOk(st, c)
  }

  ghost predicate PendingOk(st: LockState) {
    && (forall op :: Midway(st, op) ==> MidwayOk(st, op))
    && (forall a, b :: Midway(st, a) && Midway(st, b) && a != b ==>
          st.pending[a].rec.connectionId != st.pending[b].rec.connectionId)
  }

  ghost predicate Inv(st: LockState) {
    NamesOk(st) && ConnectionsOk(st) && PendingOk(st)
  }

  /** A connection id is held under one name only. */
  lemma SameName(st: LockState, g: string, n: string, h: string, m: string)
    requires Inv(st) && Holds(st.sessions.groups, g, n) && Holds(st.sessions.groups, h, m)
    requires HolderId(st.sessions.groups, g, n) == HolderId(st.sessions.groups, h, m)
    ensures g == h && n == m
  {
    assert NameOk(st, g, n) && NameOk(st, h, m);
  }

  /** Connections and halfway operations stay in order when every name they rely on stays held. */
  lemma RestKeeps(st: LockState, t: LockState, gone: set<Uuid>)
    requires ConnectionsOk(st) && PendingOk(st) && st.used <= t.used
    requires forall g, n, c :: HeldBy(st, g, n, c) && c !in gone ==> HeldBy(t, g, n, c)
    requires t.sessions.connections == st.sessions.connections && gone !! t.sessions.connections.Keys
    requires forall op :: Midway(t, op) ==>
               Midway(st, op) && t.pending[op] == st.pending[op] && st.pending[op].rec.connectionId !in gone
    ensures ConnectionsOk(t) && PendingOk(t)
  {
    forall c | c in t.sessions.connections
      ensures ConnectionOk(t, c)
    {
      assert ConnectionOk(st, c);
    }
    forall op | Midway(t, op)
      ensures MidwayOk(t, op)
    {
      assert MidwayOk(st, op);
    }
  }

  lemma BeginRegisterNames(st: LockState, op: nat, rec: SessionRecord)
    requires Inv(st) && Possible(st, BeginRegister(op, rec))
    requires !Holds(st.sessions.groups, rec.groupName, rec.clientName)
    ensures NamesOk(Run(st, BeginRegister(op, rec)))
  {
    hide NameOk;
    var t := Run(st, BeginRegister(op, rec));
    AddedShape(st.sessions.groups, rec);
    forall g, n | Holds(t.sessions.groups, g, n)
      ensures NameOk(t, g, n)
    {
      BeginRegisterName(st, op, rec, g, n);
    }
  }

  lemma BeginRegisterName(st: LockState, op: nat, rec: SessionRecord, g: string, n: string)
    requires Inv(st) && Possible(st, BeginRegister(op, rec))
    requires !Holds(st.sessions.groups, rec.groupName, rec.clientName)
    requires Holds(Run(st, BeginRegister(op, rec)).sessions.groups, g, n)
    ensures NameOk(Run(st, BeginRegister(op, rec)), g, n)
  {
    var t := Run(st, BeginRegister(op, rec));
    AddedShape(st.sessions.groups, rec);
    if g == rec.groupName && n == rec.clientName {
      assert HeldMidway(t, op, rec.groupName, rec.clientName, rec.connectionId);
    } else {
      assert NameOk(st, g, n);
      MidwayPersists(st, t, g, n, st.sessions.groups[g][n].connectionId);
    }
  }

  lemma BeginRegisterHolds(st: LockState, op: nat, rec: SessionRecord)
    requires Possible(st, BeginRegister(op, rec))
    requires !Holds(st.sessions.groups, rec.groupName, rec.clientName)
    ensures HeldBy(Run(st, BeginRegister(op, rec)), rec.groupName, rec.clientName, rec.connectionId)
    ensures forall g, n, c :: HeldBy(st, g, n, c) ==> HeldBy(Run(st, BeginRegister(op, rec)), g, n, c)
  {
    AddedShape(st.sessions.groups, rec);
  }

  lemma BeginRegisterKeeps(st: LockState, op: nat, rec: SessionRecord)
    requires Inv(st) && Possible(st, BeginRegister(op, rec))
    ensures Inv(Run(st, BeginRegister(op, rec)))
  {
    if !Holds(st.sessions.groups, rec.groupName, rec.clientName) {
      var t := Run(st, BeginRegister(op, rec));
      BeginRegisterNames(st, op, rec);
      BeginRegisterHolds(st, op, rec);
      RestKeeps(st, t.(pending := st.pending), {});
      assert forall c :: c in st.sessions.connections ==> ConnectionOk(st, c);
      forall o | Midway(t, o)
        ensures MidwayOk(t, o)
        ensures o != op ==> t.pending[o].rec.connectionId != rec.connectionId
      {
        if o != op {
          assert Midway(st, o) && MidwayOk(st, o);
          assert MidwayOk(t.(pending := st.pending), o);
        }
      }
      forall c | c in t.sessions.connections
        ensures ConnectionOk(t, c)
      {
        assert ConnectionOk(t.(pending := st.pending), c);
      }
    }
  }

  lemma MidwayPersists(st: LockState, t: LockState, g: string, n: string, c: Uuid)
    requires forall op :: op in st.pending ==> op in t.pending && t.pending[op] == st.pending[op]
    ensures (exists op :: HeldMidway(st, op, g, n, c)) ==> exists op :: HeldMidway(t, op, g, n, c)
  {
    if op :| HeldMidway(st, op, g, n, c) {
      assert HeldMidway(t, op, g, n, c);
    }
  }

  lemma BeginRemoveKeeps(st: LockState, op: nat, c: Uuid)
    requires Inv(st) && Possible(st, BeginRemove(op, c))
    ensures Inv(Run(st, BeginRemove(op, c)))
  {
    var t := Run(st, BeginRemove(op, c));
    if c in st.sessions.connections {
      var rec := st.sessions.connections[c];
      assert ConnectionOk(st, c);
      assert HeldMidway(t, op, rec.groupName, rec.clientName, c);
      forall g, n | Holds(t.sessions.groups, g, n)
        ensures NameOk(t, g, n)
      {
        assert NameOk(st, g, n);
        var d := st.sessions.groups[g][n].connectionId;
        if d == c {
          SameName(st, g, n, rec.groupName, rec.clientName);
        } else {
          MidwayPersists(st, t, g, n, d);
        }
      }
      assert forall d :: d in t.sessions.connections ==> ConnectionOk(st, d);
      assert forall o :: Midway(t, o) && o != op ==> Midway(st, o) && MidwayOk(st, o);
    }
  }

  lemma BeginTouchKeeps(st: LockState, op: nat, c: Uuid, now: int)
    requires Inv(st) && Possible(st, BeginTouch(op, c, now))
    ensures Inv(Run(st, BeginTouch(op, c, now)))
  {
    var t := Run(st, BeginTouch(op, c, now));
    if c in st.sessions.connections {
      forall g, n | Holds(t.sessions.groups, g, n)
        ensures NameOk(t, g, n)
      {
        assert NameOk(st, g, n);
        MidwayPersists(st, t, g, n, st.sessions.groups[g][n].connectionId);
      }
      assert forall d :: d in t.sessions.connections ==> ConnectionOk(st, d);
      assert forall o :: Midway(t, o) ==> Midway(st, o) && MidwayOk(st, o);
    }
  }

  lemma FinishRegisterKeeps(st: LockState, op: nat)
    requires Inv(st) && op in st.pending && st.pending[op].Registering?
    ensures Inv(Run(st, Finish(op)))
  {
    var t := Run(st, Finish(op));
    var rec := st.pending[op].rec;
    assert Midway(st, op) && MidwayOk(st, op);
    forall g, n | Holds(t.sessions.groups, g, n)
      ensures NameOk(t, g, n)
    {
      assert NameOk(st, g, n);
      var d := st.sessions.groups[g][n].connectionId;
      if d == rec.connectionId {
        SameName(st, g, n, rec.groupName, rec.clientName);
      } else if o :| HeldMidway(st, o, g, n, d) {
        assert HeldMidway(t, o, g, n, d);
      }
    }
    assert forall d :: d in t.sessions.connections && d != rec.connectionId ==> ConnectionOk(st, d);
    assert forall o :: Midway(t, o) ==> Midway(st, o) && MidwayOk(st, o);
  }

  /** The second half of a removal deletes the record of the connection being removed and no other. */
  lemma FinishRemoveEvicts(st: LockState, op: nat)
    requires Inv(st) && op in st.pending && st.pending[op].Removing?
    ensures var rec := st.pending[op].rec;
            && HeldBy(st, rec.groupName, rec.clientName, rec.connectionId)
            && rec.connectionId !in st.sessions.connections
            && forall g, n, c :: HeldBy(Run(st, Finish(op)), g, n, c) <==> HeldBy(st, g, n, c) && c != rec.connectionId
  {
    var rec := st.pending[op].rec;
    assert Midway(st, op) && MidwayOk(st, op);
    RemovedShape(st.sessions.groups, rec.groupName, rec.clientName);
    var t := Run(st, Finish(op));
    forall g, n, c
      ensures HeldBy(t, g, n, c) <==> HeldBy(st, g, n, c) && c != rec.connectionId
    {
      if HeldBy(st, g, n, c) && c == rec.connectionId {
        SameName(st, g, n, rec.groupName, rec.clientName);
      }
    }
  }

  lemma FinishRemoveKeeps(st: LockState, op: nat)
    requires Inv(st) && op in st.pending && st.pending[op].Removing?
    ensures Inv(Run(st, Finish(op)))
  {
    var t := Run(st, Finish(op));
    var rec := st.pending[op].rec;
    FinishRemoveEvicts(st, op);
    RemovedShape(st.sessions.groups, rec.groupName, rec.clientName);
    forall g, n | Holds(t.sessions.groups, g, n)
      ensures NameOk(t, g, n)
    {
      assert NameOk(st, g, n);
      StillHeld(st, t, op, g, n, st.sessions.groups[g][n].connectionId);
    }
    assert Midway(st, op);
    RestKeeps(st, t, {rec.connectionId});
  }

  lemma StillHeld(st: LockState, t: LockState, op: nat, g: string, n: string, c: Uuid)
    requires op in st.pending && t.pending == st.pending - {op}
    requires st.pending[op].Touching? || st.pending[op].rec.connectionId != c
    ensures (exists o :: HeldMidway(st, o, g, n, c)) ==> exists o :: HeldMidway(t, o, g, n, c)
  {
    if o :| HeldMidway(st, o, g, n, c) {
      assert HeldMidway(t, o, g, n, c);
    }
  }

  /** A late heartbeat may stamp the group copy of a later holder of the name, and nothing else. */
  lemma FinishTouchStamps(st: LockState, op: nat)
    requires op in st.pending && st.pending[op].Touching?
    ensures Run(st, Finish(op)).sessions.connections == st.sessions.connections
    ensures forall g, n, c :: HeldBy(Run(st, Finish(op)), g, n, c) <==> HeldBy(st, g, n, c)
  {
    var p := st.pending[op];
    TouchedShape(st.sessions.groups, p.group, p.name, p.now);
  }

  lemma FinishTouchKeeps(st: LockState, op: nat)
    requires Inv(st) && op in st.pending && st.pending[op].Touching?
    ensures Inv(Run(st, Finish(op)))
  {
    var t := Run(st, Finish(op));
    var p := st.pending[op];
    TouchedShape(st.sessions.groups, p.group, p.name, p.now);
    forall g, n | Holds(t.sessions.groups, g, n)
      ensures NameOk(t, g, n)
    {
      assert NameOk(st, g, n);
      StillHeld(st, t, op, g, n, st.sessions.groups[g][n].connectionId);
    }
    FinishTouchStamps(st, op);
    RestKeeps(st, t, {});
  }

  /** Over every interleaving of lock sections. */
  lemma {:induction false} RunsKeep(sections: seq<Section>)
    requires RunAll(sections).Some?
    ensures Inv(RunAll(sections).value)
  {
    if sections != [] {
      var n := |sections| - 1;
      RunsKeep(sections[..n]);
      var st := RunAll(sections[..n]).value;
      match sections[n]
      case BeginRegister(op, rec) => BeginRegisterKeeps(st, op, rec);
      case BeginRemove(op, c) => BeginRemoveKeeps(st, op, c);
      case BeginTouch(op, c, now) => BeginTouchKeeps(st, op, c, now);
      case Finish(op) =>
        match st.pending[op]
        case Registering(_) => FinishRegisterKeeps(st, op);
        case Removing(_) => FinishRemoveKeeps(st, op);
        case Touching(_, _, _) => FinishTouchKeeps(st, op);
    }
  }

  ghost predicate Quiet(st: LockState) {
    forall op :: !Midway(st, op)
  }

  /** Over every interleaving: no group is empty; two live connections never share a name; whenever no register
      or remove is halfway, the two maps describe the same connections. */
  lemma NamesExclusive(sections: seq<Section>)
    requires RunAll(sections).Some?
    ensures var st := RunAll(sections).value;
            && NoEmptyGroup(st.sessions.groups)
            && (forall g, n, c, d :: LiveAs(st, g, n, c) && LiveAs(st, g, n, d) ==> c == d)
            && (Quiet(st) ==> Coherent(st.sessions))
  {
    RunsKeep(sections);
    var st := RunAll(sections).value;
    forall g, n, c, d | LiveAs(st, g, n, c) && LiveAs(st, g, n, d)
      ensures c == d
    {
      assert ConnectionOk(st, c) && ConnectionOk(st, d);
    }
    if Quiet(st) {
      forall g, n | Holds(st.sessions.groups, g, n)
        ensures LiveAs(st, g, n, st.sessions.groups[g][n].connectionId)
      {
        assert NameOk(st, g, n);
      }
      assert forall c :: c in st.sessions.connections ==> ConnectionOk(st, c);
    }
  }

  /** Run one after the other, the two sections of an operation are the store's whole operation. */
  lemma SectionsMakeOperations(st: LockState, op: nat, rec: SessionRecord, c: Uuid, now: int)
    requires op !in st.pending && rec.connectionId !in st.used && c in st.sessions.connections
    requires !Holds(st.sessions.groups, rec.groupName, rec.clientName)
    ensures Run(Run(st, BeginRegister(op, rec)), Finish(op)).sessions == AddSession(st.sessions, rec).value
    ensures Run(Run(st, BeginRemove(op, c)), Finish(op)).sessions == RemoveSession(st.sessions, c)
    ensures Run(Run(st, BeginTouch(op, c, now)), Finish(op)).sessions == TouchSession(st.sessions, c, now)
  {
  }
}
