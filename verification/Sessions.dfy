/** The relay's session store (crates/server/src/session.rs): two maps under two locks,
    and the routing that reads them (crates/server/src/router.rs). */
module Sessions {
  import opened Basics
  import opened Packets
  import opened Heartbeats

  const DEFAULT_GROUP_NAME := "default"

  datatype SessionRecord = SessionRecord(
    connectionId: Uuid, groupName: string, clientName: string, connectedAt: int, lastHeartbeatAt: int)
  {
    function Endpoint(): Packets.Endpoint {
      Packets.Endpoint(Some(groupName), Some(clientName))
    }
  }

  type Groups = map<string, map<string, SessionRecord>>
  type Connections = map<Uuid, SessionRecord>

  datatype Sessions = Sessions(groups: Groups, connections: Connections)

  const NO_SESSIONS := Sessions(map[], map[])

  datatype ServerError =
    | UnsupportedVersionError(version: string)
    | InvalidPacketKindError
    | DuplicateName(groupName: string, clientName: string)
    | NoClient(groupName: string, clientName: string)
    | NoGroup(groupName: string)
    | TooLarge(fileId: Uuid, actual: u64, max: u64)
    | TimedOut
    | NotAccepted
    | BadChunk

  /** Rust's `char::is_whitespace`: the Unicode White_Space property. */
  predicate IsWhitespace(c: char) {
    || '\t' <= c <= '\r' || c == ' ' || c == '\U{85}' || c == '\U{A0}' || c == '\U{1680}'
    || '\U{2000}' <= c <= '\U{200A}' || c == '\U{2028}' || c == '\U{2029}' || c == '\U{202F}'
    || c == '\U{205F}' || c == '\U{3000}'
  }

  predicate IsBlank(s: string) {
    forall i :: 0 <= i < |s| ==> IsWhitespace(s[i])
  }

  function NameOr(requested: Option<string>, fallback: string): string {
    if requested.Some? && !IsBlank(requested.value) then requested.value else fallback
  }

  // ---------- what one operation does under one lock ----------

  predicate Holds(groups: Groups, group: string, name: string) {
    group in groups && name in groups[group]
  }

  function HolderId(groups: Groups, group: string, name: string): Uuid
    requires Holds(groups, group, name)
  {
    groups[group][name].connectionId
  }

  function AddToGroups(groups: Groups, rec: SessionRecord): Groups {
    var entry := if rec.groupName in groups then groups[rec.groupName] else map[];
    groups[rec.groupName := entry[rec.clientName := rec]]
  }

  function RemoveFromGroups(groups: Groups, group: string, name: string): Groups {
    if group !in groups then groups
    else
      var entry := groups[group] - {name};
      if entry == map[] then groups - {group} else groups[group := entry]
  }

  function TouchInConnections(connections: Connections, c: Uuid, now: int): Connections {
    if c in connections then connections[c := connections[c].(lastHeartbeatAt := now)] else connections
  }

  function TouchInGroups(groups: Groups, group: string, name: string, now: int): Groups {
    if Holds(groups, group, name)
    then groups[group := groups[group][name := groups[group][name].(lastHeartbeatAt := now)]]
    else groups
  }

  ghost predicate NoEmptyGroup(groups: Groups) {
    forall g :: g in groups ==> exists n :: n in groups[g]
  }

  lemma AddedShape(groups: Groups, rec: SessionRecord)
    ensures var a := AddToGroups(groups, rec);
            && (forall g, n :: Holds(a, g, n) <==> Holds(groups, g, n) || (g == rec.groupName && n == rec.clientName))
            && (forall g, n :: Holds(a, g, n) ==>
                  a[g][n] == if g == rec.groupName && n == rec.clientName then rec else groups[g][n])
            && (NoEmptyGroup(groups) ==> NoEmptyGroup(a))
  {
    var a := AddToGroups(groups, rec);
    forall g | g in a && NoEmptyGroup(groups)
      ensures exists n :: n in a[g]
    {
      if g == rec.groupName {
        assert rec.clientName in a[g];
      }
    }
  }

  lemma RemovedShape(groups: Groups, group: string, name: string)
    ensures var r := RemoveFromGroups(groups, group, name);
            && (forall g, n :: Holds(r, g, n) <==> Holds(groups, g, n) && !(g == group && n == name))
            && (forall g, n :: Holds(r, g, n) ==> r[g][n] == groups[g][n])
            && (NoEmptyGroup(groups) ==> NoEmptyGroup(r))
  {
    var r := RemoveFromGroups(groups, group, name);
    if group in groups {
      var entry := groups[group] - {name};
      if entry != map[] {
        assert entry.Keys != {};
        var m :| m in entry.Keys;
        assert m in r[group];
      } else {
        forall n | n in groups[group]
          ensures n == name
        {
          assert n != name ==> n in entry;
        }
      }
    }
  }

  lemma TouchedShape(groups: Groups, group: string, name: string, now: int)
    ensures var t := TouchInGroups(groups, group, name, now);
            && (forall g, n :: Holds(t, g, n) <==> Holds(groups, g, n))
            && (forall g, n :: Holds(t, g, n) ==>
                  t[g][n] == if g == group && n == name then groups[g][n].(lastHeartbeatAt := now) else groups[g][n])
            && (NoEmptyGroup(groups) ==> NoEmptyGroup(t))
  {
    var t := TouchInGroups(groups, group, name, now);
    forall g | g in t && NoEmptyGroup(groups)
      ensures exists n :: n in t[g]
    {
      var n :| n in groups[g];
      assert n in t[g];
    }
  }

  // ---------- whole operations ----------

  function AddSession(s: Sessions, rec: SessionRecord): Result<Sessions, ServerError> {
    if Holds(s.groups, rec.groupName, rec.clientName) then Err(DuplicateName(rec.groupName, rec.clientName))
    else Ok(Sessions(AddToGroups(s.groups, rec), s.connections[rec.connectionId := rec]))
  }

  function RemoveSession(s: Sessions, c: Uuid): Sessions {
    if c !in s.connections then s
    else
      var rec := s.connections[c];
      Sessions(RemoveFromGroups(s.groups, rec.groupName, rec.clientName), s.connections - {c})
  }

  function TouchSession(s: Sessions, c: Uuid, now: int): Sessions {
    if c !in s.connections then s
    else
      var rec := s.connections[c];
      Sessions(TouchInGroups(s.groups, rec.groupName, rec.clientName, now), TouchInConnections(s.connections, c, now))
  }

  function ResolveUnicast(s: Sessions, group: string, name: string): Result<Uuid, ServerError> {
    if group !in s.groups then Err(NoGroup(group))
    else if name !in s.groups[group] then Err(NoClient(group, name))
    else Ok(HolderId(s.groups, group, name))
  }

  function ResolveBroadcast(s: Sessions, group: string, exclude: Uuid): Result<set<Uuid>, ServerError> {
    if group !in s.groups then Err(NoGroup(group))
    else
      var g := s.groups[group];
      Ok(set n | n in g && g[n].connectionId != exclude :: g[n].connectionId)
  }

  // ---------- the two maps describe the same connections ----------

  ghost predicate Coherent(s: Sessions) {
    && (forall c :: c in s.connections ==>
          var rec := s.connections[c];
          && rec.connectionId == c
          && Holds(s.groups, rec.groupName, rec.clientName)
          && HolderId(s.groups, rec.groupName, rec.clientName) == c)
    && NoEmptyGroup(s.groups)
    && (forall g, n :: Holds(s.groups, g, n) ==>
          var rec := s.groups[g][n];
          && rec.groupName == g && rec.clientName == n
          && rec.connectionId in s.connections
          && s.connections[rec.connectionId].groupName == g && s.connections[rec.connectionId].clientName == n)
  }

  lemma RegisteredNames(s: Sessions, rec: SessionRecord, g: string, n: string)
    requires Coherent(s) && rec.connectionId !in s.connections && AddSession(s, rec).Ok?
    requires Holds(AddSession(s, rec).value.groups, g, n)
    ensures var t := AddSession(s, rec).value;
            var r := t.groups[g][n];
            && r.groupName == g && r.clientName == n && r.connectionId in t.connections
            && t.connections[r.connectionId].groupName == g && t.connections[r.connectionId].clientName == n
  {
    AddedShape(s.groups, rec);
    if !(g == rec.groupName && n == rec.clientName) {
      assert Holds(s.groups, g, n);
    }
  }

  lemma RegisteredConnections(s: Sessions, rec: SessionRecord, c: Uuid)
    requires Coherent(s) && rec.connectionId !in s.connections && AddSession(s, rec).Ok?
    requires c in AddSession(s, rec).value.connections
    ensures var t := AddSession(s, rec).value;
            var r := t.connections[c];
            r.connectionId == c && Holds(t.groups, r.groupName, r.clientName)
                && HolderId(t.groups, r.groupName, r.clientName) == c
  {
    AddedShape(s.groups, rec);
  }

  lemma RegisterKeeps(s: Sessions, rec: SessionRecord)
    requires Coherent(s) && rec.connectionId !in s.connections && AddSession(s, rec).Ok?
    ensures Coherent(AddSession(s, rec).value)
  {
    AddedShape(s.groups, rec);
    var t := AddSession(s, rec).value;
    forall c | c in t.connections
      ensures var r := t.connections[c];
              r.connectionId == c && Holds(t.groups, r.groupName, r.clientName)
                  && HolderId(t.groups, r.groupName, r.clientName) == c
    {
      RegisteredConnections(s, rec, c);
    }
    forall g, n | Holds(t.groups, g, n)
      ensures var r := t.groups[g][n];
              && r.groupName == g && r.clientName == n && r.connectionId in t.connections
              && t.connections[r.connectionId].groupName == g && t.connections[r.connectionId].clientName == n
    {
      RegisteredNames(s, rec, g, n);
    }
  }

  lemma RemoveKeeps(s: Sessions, c: Uuid)
    requires Coherent(s)
    ensures Coherent(RemoveSession(s, c)) && RemoveSession(s, c).connections == s.connections - {c}
  {
    if c in s.connections {
      var rec := s.connections[c];
      var t := RemoveSession(s, c);
      RemovedShape(s.groups, rec.groupName, rec.clientName);
      forall d | d in t.connections
        ensures Holds(t.groups, t.connections[d].groupName, t.connections[d].clientName)
        ensures HolderId(t.groups, t.connections[d].groupName, t.connections[d].clientName) == d
      {
        assert HolderId(s.groups, s.connections[d].groupName, s.connections[d].clientName) == d;
      }
      forall g, n | Holds(t.groups, g, n)
        ensures SameHolder(s, t, g, n) && t.groups[g][n].connectionId in t.connections
      {
        assert Holds(s.groups, g, n);
        assert s.groups[g][n].connectionId != c;
      }
      forall g, n | Holds(t.groups, g, n)
        ensures var r := t.groups[g][n];
                && r.groupName == g && r.clientName == n && r.connectionId in t.connections
                && t.connections[r.connectionId].groupName == g && t.connections[r.connectionId].clientName == n
      {
        assert SameHolder(s, t, g, n);
      }
    }
  }

  lemma TouchedNames(s: Sessions, c: Uuid, now: int, g: string, n: string)
    requires Coherent(s) && c in s.connections && Holds(TouchSession(s, c, now).groups, g, n)
    ensures SameHolder(s, TouchSession(s, c, now), g, n)
  {
    TouchedShape(s.groups, s.connections[c].groupName, s.connections[c].clientName, now);
  }

  lemma TouchedConnections(s: Sessions, c: Uuid, now: int, d: Uuid)
    requires Coherent(s) && c in s.connections && d in s.connections
    ensures var t := TouchSession(s, c, now);
            && d in t.connections && t.connections[d].connectionId == d
            && t.connections[d].groupName == s.connections[d].groupName
            && t.connections[d].clientName == s.connections[d].clientName
            && Holds(t.groups, t.connections[d].groupName, t.connections[d].clientName)
            && HolderId(t.groups, t.connections[d].groupName, t.connections[d].clientName) == d
  {
    TouchedShape(s.groups, s.connections[c].groupName, s.connections[c].clientName, now);
  }

  lemma TouchKeeps(s: Sessions, c: Uuid, now: int)
    requires Coherent(s)
    ensures Coherent(TouchSession(s, c, now)) && TouchSession(s, c, now).connections.Keys == s.connections.Keys
  {
    if c in s.connections {
      var t := TouchSession(s, c, now);
      TouchedShape(s.groups, s.connections[c].groupName, s.connections[c].clientName, now);
      forall d | d in t.connections
        ensures t.connections[d].groupName == s.connections[d].groupName
        ensures t.connections[d].clientName == s.connections[d].clientName
        ensures var r := t.connections[d];
                r.connectionId == d && Holds(t.groups, r.groupName, r.clientName)
                    && HolderId(t.groups, r.groupName, r.clientName) == d
      {
        TouchedConnections(s, c, now, d);
      }
      forall g, n | Holds(t.groups, g, n)
        ensures var rec := t.groups[g][n];
                && rec.groupName == g && rec.clientName == n && rec.connectionId in t.connections
                && t.connections[rec.connectionId].groupName == g && t.connections[rec.connectionId].clientName == n
      {
        TouchedNames(s, c, now, g, n);
      }
    }
  }

  predicate SameHolder(s: Sessions, t: Sessions, g: string, n: string) {
    && Holds(s.groups, g, n) && Holds(t.groups, g, n)
    && t.groups[g][n].connectionId == s.groups[g][n].connectionId
    && t.groups[g][n].groupName == s.groups[g][n].groupName && t.groups[g][n].clientName == s.groups[g][n].clientName
  }

  // ---------- the flat set of live connections ----------

  datatype Name = Name(group: string, client: string)

  function Flat(s: Sessions): map<Uuid, Name> {
    map c | c in s.connections :: Name(s.connections[c].groupName, s.connections[c].clientName)
  }

  /** No two live connections have the same name. */
  lemma FlatInjective(s: Sessions, c: Uuid, d: Uuid)
    requires Coherent(s) && c in s.connections && d in s.connections && Flat(s)[c] == Flat(s)[d]
    ensures c == d
  {
  }

  /** A broadcast reaches exactly the live connections of the group other than the sender, and fails exactly when the
      group has no live connection. */
  lemma BroadcastRefinesFlat(s: Sessions, group: string, exclude: Uuid)
    requires Coherent(s)
    ensures ResolveBroadcast(s, group, exclude) ==
              if exists c :: c in Flat(s) && Flat(s)[c].group == group
              then Ok(GroupOthers(s, group, exclude))
              else Err(NoGroup(group))
  {
    if group in s.groups {
      var n :| n in s.groups[group];
      assert Holds(s.groups, group, n);
      var some := s.groups[group][n].connectionId;
      assert some in Flat(s) && Flat(s)[some].group == group;
      BroadcastIds(s, group, exclude);
    }
  }

  /** The live connections of a group other than one. */
  function GroupOthers(s: Sessions, group: string, exclude: Uuid): set<Uuid> {
    set c | c in Flat(s) && Flat(s)[c].group == group && c != exclude
  }

  lemma BroadcastIds(s: Sessions, group: string, exclude: Uuid)
    requires Coherent(s) && group in s.groups
    ensures ResolveBroadcast(s, group, exclude).value == GroupOthers(s, group, exclude)
  {
    var g := s.groups[group];
    var found := ResolveBroadcast(s, group, exclude).value;
    forall c | c in found
      ensures c in GroupOthers(s, group, exclude)
    {
      var m :| m in g && g[m].connectionId == c && g[m].connectionId != exclude;
      assert Holds(s.groups, group, m);
    }
    forall c | c in GroupOthers(s, group, exclude)
      ensures c in found
    {
      var name := s.connections[c].clientName;
      assert Holds(s.groups, group, name) && HolderId(s.groups, group, name) == c;
      assert name in g && g[name].connectionId == c;
    }
  }

  /** Unicast reaches the one live holder of the name; the two errors say exactly whether the group has anyone. */
  lemma UnicastRefinesFlat(s: Sessions, group: string, name: string)
    requires Coherent(s)
    ensures match ResolveUnicast(s, group, name)
            case Ok(c) => c in Flat(s) && Flat(s)[c] == Name(group, name)
                          && forall d :: d in Flat(s) && Flat(s)[d] == Name(group, name) ==> d == c
            case Err(NoGroup(_)) => forall d :: d in Flat(s) ==> Flat(s)[d].group != group
            case Err(NoClient(_, _)) => (forall d :: d in Flat(s) ==> Flat(s)[d] != Name(group, name))
                                        && exists d :: d in Flat(s) && Flat(s)[d].group == group
            case Err(_) => false
  {
    if group in s.groups {
      if name in s.groups[group] {
        assert Holds(s.groups, group, name);
      } else {
        var n :| n in s.groups[group];
        assert Holds(s.groups, group, n);
        var d := s.groups[group][n].connectionId;
        assert d in Flat(s) && Flat(s)[d].group == group;
      }
    }
  }

  // ---------- names ----------

  /** The name a client asks for, unless it is absent or blank. */
  predicate NamedAs(requested: Option<string>, fallback: string, name: string) {
    if requested.Some? && exists i :: 0 <= i < |requested.value| && requested.value[i] as int !in WHITE_SPACE
    then name == requested.value else name == fallback
  }

  /** The code points with the White_Space property of Unicode. */
  const WHITE_SPACE: set<int> := {
    0x9, 0xA, 0xB, 0xC, 0xD, 0x20, 0x85, 0xA0, 0x1680, 0x2000, 0x2001, 0x2002, 0x2003, 0x2004, 0x2005, 0x2006, 0x2007,
    0x2008, 0x2009, 0x200A, 0x2028, 0x2029, 0x202F, 0x205F, 0x3000}

  lemma NamedAsRequested(requested: Option<string>, fallback: string)
    ensures NamedAs(requested, fallback, NameOr(requested, fallback))
  {
    assert forall c: char :: IsWhitespace(c) <==> c as int in WHITE_SPACE;
  }

  /** Registering fails exactly when a live connection has the name, and otherwise adds this name to the flat set and
      nothing else. */
  lemma RegisterRefinesFlat(s: Sessions, rec: SessionRecord)
    requires Coherent(s)
    ensures var name := Name(rec.groupName, rec.clientName);
            if exists c :: c in Flat(s) && Flat(s)[c] == name
            then AddSession(s, rec) == Err(DuplicateName(rec.groupName, rec.clientName))
            else
              && AddSession(s, rec).Ok?
              && AddSession(s, rec).value.connections == s.connections[rec.connectionId := rec]
              && Flat(AddSession(s, rec).value) == Flat(s)[rec.connectionId := name]
  {
    if Holds(s.groups, rec.groupName, rec.clientName) {
      assert Flat(s)[HolderId(s.groups, rec.groupName, rec.clientName)] == Name(rec.groupName, rec.clientName);
    }
  }

  // ---------- the mutable store ----------

  class SessionStore {
    var groups: Groups
    var connections: Connections

    function State(): Sessions
      reads this
    {
      Sessions(groups, connections)
    }

    constructor ()
      ensures State() == NO_SESSIONS
    {
      groups, connections := map[], map[];
    }

    /** `connectionId` and `generatedName` are the two UUIDs the source draws. */
    method Register(requestedGroup: Option<string>, requestedName: Option<string>, connectionId: Uuid,
                    generatedName: string, now: int) returns (r: Result<SessionRecord, ServerError>)
      modifies this
      ensures var rec := SessionRecord(connectionId, NameOr(requestedGroup, DEFAULT_GROUP_NAME),
                                       NameOr(requestedName, generatedName), now, now);
              match AddSession(old(State()), rec)
              case Ok(s) => State() == s && r == Ok(rec)
              case Err(e) => State() == old(State()) && r == Err(e)
      ensures r.Ok? ==>
                && NamedAs(requestedGroup, "default", r.value.groupName)
                && NamedAs(requestedName, generatedName, r.value.clientName)
                && Flat(State()) == old(Flat(State()))[connectionId := Name(r.value.groupName, r.value.clientName)]
    {
      NamedAsRequested(requestedGroup, DEFAULT_GROUP_NAME);
      NamedAsRequested(requestedName, generatedName);
      var groupName := NameOr(requestedGroup, DEFAULT_GROUP_NAME);
      var clientName := NameOr(requestedName, generatedName);
      var rec := SessionRecord(connectionId, groupName, clientName, now, now);
      var entry := if groupName in groups then groups[groupName] else map[];
      if clientName in entry {
        return Err(DuplicateName(groupName, clientName));
      }
      groups := groups[groupName := entry[clientName := rec]];
      connections := connections[connectionId := rec];
      return Ok(rec);
    }

    method Unicast(group: string, name: string) returns (r: Result<SessionRecord, ServerError>)
      ensures match ResolveUnicast(State(), group, name)
              case Ok(c) => r.Ok? && r.value.connectionId == c && Holds(groups, group, name)
                  && r.value == groups[group][name]
              case Err(e) => r == Err(e)
    {
      if group !in groups {
        return Err(NoGroup(group));
      }
      if name !in groups[group] {
        return Err(NoClient(group, name));
      }
      return Ok(groups[group][name]);
    }

    /** The recipients in the order the hash map yields them, each once. */
    method Broadcast(group: string, exclude: Uuid) returns (r: Result<seq<SessionRecord>, ServerError>)
      requires Coherent(State())
      ensures match ResolveBroadcast(State(), group, exclude)
              case Ok(ids) => r.Ok? && ListsIds(r.value, ids)
              case Err(e) => r == Err(e)
    {
      if group !in groups {
        return Err(NoGroup(group));
      }
      var g := groups[group];
      var todo := set n | n in g && g[n].connectionId != exclude;
      ghost var all := todo;
      var out: seq<SessionRecord> := [];
      while todo != {}
        invariant todo <= all
        invariant ListsIds(out, IdsOf(g, all - todo))
        decreases |todo|
      {
        var n :| n in todo;
        IdOutside(State(), group, all - todo, n);
        ListOneMore(out, IdsOf(g, all - todo), g[n]);
        assert IdsOf(g, all - (todo - {n})) == IdsOf(g, all - todo) + {g[n].connectionId};
        todo := todo - {n};
        out := out + [g[n]];
      }
      assert all - todo == all && IdsOf(g, all) == ResolveBroadcast(State(), group, exclude).value;
      return Ok(out);
    }

    method Resolve(c: Uuid) returns (r: Option<SessionRecord>)
      ensures r == if c in connections then Some(connections[c]) else None
    {
      if c in connections { r := Some(connections[c]); } else { r := None; }
    }

    method TouchHeartbeat(c: Uuid, now: int)
      modifies this
      ensures State() == TouchSession(old(State()), c, now)
    {
      if c !in connections {
        return;
      }
      connections := connections[c := connections[c].(lastHeartbeatAt := now)];
      var groupName, clientName := connections[c].groupName, connections[c].clientName;
      if groupName in groups {
        var group := groups[groupName];
        if clientName in group {
          groups := groups[groupName := group[clientName := group[clientName].(lastHeartbeatAt := now)]];
        }
      }
    }

    method ExpiredConnectionIds(timeoutSec: u64, now: int) returns (ids: set<Uuid>)
      ensures ids == set c | c in connections && HasExpired(timeoutSec, now, connections[c].lastHeartbeatAt)
    {
      ids := set c | c in connections && HasExpired(timeoutSec, now, connections[c].lastHeartbeatAt);
    }

    method RemoveConnection(c: Uuid) returns (r: Option<SessionRecord>)
      modifies this
      ensures State() == RemoveSession(old(State()), c)
      ensures r == if c in old(connections) then Some(old(connections)[c]) else None
    {
      if c !in connections {
        return None;
      }
      var rec := connections[c];
      connections := connections - {c};
      if rec.groupName in groups {
        var group := groups[rec.groupName] - {rec.clientName};
        groups := groups[rec.groupName := group];
        if group == map[] {
          groups := groups - {rec.groupName};
        }
      }
      return Some(rec);
    }
  }

  /** The records name exactly these connections, each once. */
  ghost predicate ListsIds(records: seq<SessionRecord>, ids: set<Uuid>) {
    && (forall i :: 0 <= i < |records| ==> records[i].connectionId in ids)
    && (forall c :: c in ids ==> exists i :: 0 <= i < |records| && records[i].connectionId == c)
    && (forall i, j :: 0 <= i < j < |records| ==> records[i].connectionId != records[j].connectionId)
  }

  ghost function IdsOf(group: map<string, SessionRecord>, names: set<string>): set<Uuid> {
    set n | n in names && n in group :: group[n].connectionId
  }

  lemma IdOutside(s: Sessions, group: string, names: set<string>, n: string)
    requires Coherent(s) && Holds(s.groups, group, n) && n !in names
    ensures s.groups[group][n].connectionId !in IdsOf(s.groups[group], names)
  {
    forall m | m in names && m in s.groups[group]
      ensures s.groups[group][m].connectionId != s.groups[group][n].connectionId
    {
      assert Holds(s.groups, group, m);
    }
  }

  lemma ListOneMore(records: seq<SessionRecord>, ids: set<Uuid>, rec: SessionRecord)
    requires ListsIds(records, ids) && rec.connectionId !in ids
    ensures ListsIds(records + [rec], ids + {rec.connectionId})
  {
    var longer := records + [rec];
    forall c | c in ids + {rec.connectionId}
      ensures exists i :: 0 <= i < |longer| && longer[i].connectionId == c
    {
      if c in ids {
        var i :| 0 <= i < |records| && records[i].connectionId == c;
        assert longer[i].connectionId == c;
      } else {
        assert longer[|records|].connectionId == c;
      }
    }
  }
}
