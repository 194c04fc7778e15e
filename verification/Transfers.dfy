/** The relay's table of transfer legs and its completion-id index (crates/server/src/transfer.rs). */
module Transfers {
  import opened Basics

  datatype LegKey = LegKey(fileId: Uuid, receiver: Uuid)

  datatype TransferRecord = TransferRecord(
    fileId: Uuid, requestId: RequestId, sender: Uuid, receiver: Uuid, accepted: bool)

  datatype Registry = Registry(legs: map<LegKey, TransferRecord>, index: map<RequestId, Uuid>)

  const EMPTY := Registry(map[], map[])

  function LegsOf(r: Registry, f: Uuid): set<LegKey> {
    set k | k in r.legs && k.fileId == f
  }

  function LegsNaming(r: Registry, c: Uuid): set<LegKey> {
    set k | k in r.legs && (r.legs[k].sender == c || r.legs[k].receiver == c)
  }

  function RequestIds(r: Registry, keys: set<LegKey>): set<RequestId> {
    set k | k in keys && k in r.legs :: r.legs[k].requestId
  }

  function Drop(r: Registry, keys: set<LegKey>): Registry {
    Registry(r.legs - keys, r.index - RequestIds(r, keys))
  }

  function CreateOffer(r: Registry, f: Uuid, rid: RequestId, sender: Uuid, receiver: Uuid): Registry {
    r.(legs := r.legs[LegKey(f, receiver) := TransferRecord(f, rid, sender, receiver, false)])
  }

  function MarkAccepted(r: Registry, f: Uuid, receiver: Uuid): Option<Registry> {
    var k := LegKey(f, receiver);
    if k in r.legs then Some(r.(legs := r.legs[k := r.legs[k].(accepted := true)])) else None
  }

  function AcceptedLegs(r: Registry, f: Uuid, sender: Uuid): set<LegKey> {
    set k | k in r.legs && r.legs[k].fileId == f && r.legs[k].sender == sender && r.legs[k].accepted
  }

  /** `set_complete_request_id_for_file`: every leg of the file takes the new id, which replaces their old ids in the
      index. */
  function SetComplete(r: Registry, f: Uuid, rid: RequestId): Option<Registry> {
    if LegsOf(r, f) == {} then None
    else
      Some(Registry(
        map k | k in r.legs :: if k.fileId == f then r.legs[k].(requestId := rid) else r.legs[k],
        (r.index - RequestIds(r, LegsOf(r, f)))[rid := f]))
  }

  function RemoveByFile(r: Registry, f: Uuid): Registry {
    Drop(r, LegsOf(r, f))
  }

  function RemoveByRequest(r: Registry, rid: RequestId): Registry {
    if rid !in r.index then r
    else Registry(r.legs - LegsOf(r, r.index[rid]), r.index - {rid})
  }

  function RemoveByConnection(r: Registry, c: Uuid): Registry {
    Drop(r, LegsNaming(r, c))
  }

  // ---------- the index agrees with the legs ----------

  predicate KeysOk(r: Registry) {
    forall k :: k in r.legs ==> r.legs[k].fileId == k.fileId && r.legs[k].receiver == k.receiver
  }

  /** An entry q -> f means f has a leg, and every leg of f carries q. */
  ghost predicate IndexOk(r: Registry) {
    forall q :: q in r.index ==>
      && (exists k :: k in r.legs && k.fileId == r.index[q])
      && (forall k :: k in r.legs && k.fileId == r.index[q] ==> r.legs[k].requestId == q)
  }

  ghost predicate Completed(r: Registry, f: Uuid) {
    exists q :: q in r.index && r.index[q] == f
  }

  /** Two entries never name the same file. */
  lemma IndexInjective(r: Registry, q: RequestId, p: RequestId)
    requires IndexOk(r) && q in r.index && p in r.index && r.index[q] == r.index[p]
    ensures q == p
  {
    var k :| k in r.legs && k.fileId == r.index[q];
  }

  /** An offer keeps the agreement exactly when it does not re-offer a completed file under another id. */
  lemma OfferKeepsIndexExactly(r: Registry, f: Uuid, rid: RequestId, sender: Uuid, receiver: Uuid)
    requires IndexOk(r)
    ensures IndexOk(CreateOffer(r, f, rid, sender, receiver)) <==>
              forall q :: q in r.index && r.index[q] == f ==> q == rid
  {
    var s := CreateOffer(r, f, rid, sender, receiver);
    var key := LegKey(f, receiver);
    if forall q :: q in r.index && r.index[q] == f ==> q == rid {
      forall q | q in s.index
        ensures exists k :: k in s.legs && k.fileId == s.index[q]
      {
        var k :| k in r.legs && k.fileId == r.index[q];
        assert k in s.legs;
      }
    } else {
      var q :| q in r.index && r.index[q] == f && q != rid;
      assert key in s.legs && key.fileId == s.index[q] && s.legs[key].requestId == rid;
    }
  }

  lemma AcceptKeepsIndex(r: Registry, f: Uuid, receiver: Uuid)
    requires IndexOk(r) && MarkAccepted(r, f, receiver).Some?
    ensures IndexOk(MarkAccepted(r, f, receiver).value)
  {
    var s := MarkAccepted(r, f, receiver).value;
    forall q | q in s.index
      ensures exists k :: k in s.legs && k.fileId == s.index[q]
    {
      var k :| k in r.legs && k.fileId == r.index[q];
      assert k in s.legs;
    }
  }

  lemma CarriedId(r: Registry, keys: set<LegKey>, k: LegKey)
    ensures k in keys && k in r.legs ==> r.legs[k].requestId in RequestIds(r, keys)
  {
  }

  lemma CompleteKeepsIndex(r: Registry, f: Uuid, rid: RequestId)
    requires IndexOk(r) && SetComplete(r, f, rid).Some?
    ensures IndexOk(SetComplete(r, f, rid).value)
    ensures SetComplete(r, f, rid).value.index[rid] == f
  {
    var s := SetComplete(r, f, rid).value;
    forall q | q in s.index
      ensures exists k :: k in s.legs && k.fileId == s.index[q]
      ensures forall k :: k in s.legs && k.fileId == s.index[q] ==> s.legs[k].requestId == q
    {
      if q == rid {
        var k :| k in LegsOf(r, f);
        assert k in s.legs && k.fileId == f;
      } else {
        var k :| k in r.legs && k.fileId == r.index[q];
        assert k in s.legs;
        CarriedId(r, LegsOf(r, f), k);
      }
    }
  }

  /** Dropping legs together with the ids they carry leaves no dangling entry. */
  lemma DropKeepsIndex(r: Registry, keys: set<LegKey>)
    requires IndexOk(r)
    ensures IndexOk(Drop(r, keys))
  {
    var s := Drop(r, keys);
    forall q | q in s.index
      ensures exists k :: k in s.legs && k.fileId == s.index[q]
    {
      var k :| k in r.legs && k.fileId == r.index[q];
      CarriedId(r, keys, k);
      assert k in s.legs;
    }
  }

  lemma AckKeepsIndex(r: Registry, rid: RequestId)
    requires IndexOk(r)
    ensures IndexOk(RemoveByRequest(r, rid))
    ensures rid in r.index
            ==> LegsOf(RemoveByRequest(r, rid), r.index[rid]) == {} && !Completed(RemoveByRequest(r, rid), r.index[rid])
  {
    var s := RemoveByRequest(r, rid);
    if rid in r.index {
      forall q | q in s.index
        ensures s.index[q] != r.index[rid]
        ensures exists k :: k in s.legs && k.fileId == s.index[q]
      {
        if r.index[q] == r.index[rid] { IndexInjective(r, q, rid); }
        var k :| k in r.legs && k.fileId == r.index[q];
        assert k in s.legs;
      }
    }
  }

  /** After a file's legs are removed nothing in the index names it. */
  lemma RemovedFileLeavesNothing(r: Registry, f: Uuid)
    requires IndexOk(r)
    ensures LegsOf(RemoveByFile(r, f), f) == {} && !Completed(RemoveByFile(r, f), f)
  {
    DropKeepsIndex(r, LegsOf(r, f));
    assert LegsOf(RemoveByFile(r, f), f) == {};
  }

  // ---------- runs ----------

  datatype Op =
    | Offer(fileId: Uuid, rid: RequestId, sender: Uuid, receiver: Uuid)
    | Accept(fileId: Uuid, receiver: Uuid)
    | Complete(fileId: Uuid, rid: RequestId)
    | Remove(fileId: Uuid)
    | Acked(rid: RequestId)
    | Gone(connection: Uuid)

  function Apply(r: Registry, op: Op): Registry {
    match op
    case Offer(f, rid, s, c) => CreateOffer(r, f, rid, s, c)
    case Accept(f, c) => if MarkAccepted(r, f, c).Some? then MarkAccepted(r, f, c).value else r
    case Complete(f, rid) => if SetComplete(r, f, rid).Some? then SetComplete(r, f, rid).value else r
    case Remove(f) => RemoveByFile(r, f)
    case Acked(rid) => RemoveByRequest(r, rid)
    case Gone(c) => RemoveByConnection(r, c)
  }

  function RunOps(ops: seq<Op>): Registry {
    if ops == [] then EMPTY else Apply(RunOps(ops[..|ops| - 1]), ops[|ops| - 1])
  }

  ghost predicate NoReoffer(ops: seq<Op>) {
    forall i :: 0 <= i < |ops| && ops[i].Offer? ==> !Completed(RunOps(ops[..i]), ops[i].fileId)
  }

  /** In every run of registry methods that never re-offers a completed file, the index agrees with the leg table. */
  lemma {:induction false} RunsAgree(ops: seq<Op>)
    requires NoReoffer(ops)
    ensures KeysOk(RunOps(ops)) && IndexOk(RunOps(ops))
  {
    if ops != [] {
      var n := |ops| - 1;
      var before := RunOps(ops[..n]);
      forall i | 0 <= i < n && ops[..n][i].Offer?
        ensures !Completed(RunOps(ops[..n][..i]), ops[..n][i].fileId)
      {
        assert ops[..n][..i] == ops[..i];
      }
      RunsAgree(ops[..n]);
      match ops[n]
      case Offer(f, rid, s, c) =>
        assert !Completed(before, f);
        OfferKeepsIndexExactly(before, f, rid, s, c);
      case Accept(f, c) => if MarkAccepted(before, f, c).Some? { AcceptKeepsIndex(before, f, c); }
      case Complete(f, rid) => if SetComplete(before, f, rid).Some? { CompleteKeepsIndex(before, f, rid); }
      case Remove(f) => DropKeepsIndex(before, LegsOf(before, f));
      case Acked(rid) => AckKeepsIndex(before, rid);
      case Gone(c) => DropKeepsIndex(before, LegsNaming(before, c));
    }
  }

  // ---------- the mutable registry ----------

  class TransferRegistry {
    var legs: map<LegKey, TransferRecord>
    var byRequestId: map<RequestId, Uuid>

    function State(): Registry
      reads this
    {
      Registry(legs, byRequestId)
    }

    constructor ()
      ensures State() == EMPTY
    {
      legs, byRequestId := map[], map[];
    }

    method Offer(f: Uuid, rid: RequestId, sender: Uuid, receiver: Uuid)
      modifies this
      ensures State() == CreateOffer(old(State()), f, rid, sender, receiver)
    {
      var record := TransferRecord(f, rid, sender, receiver, false);
      legs := legs[LegKey(f, receiver) := record];
    }

    method Accept(f: Uuid, receiver: Uuid) returns (record: Option<TransferRecord>)
      modifies this
      ensures match MarkAccepted(old(State()), f, receiver)
              case None => record == None && State() == old(State())
              case Some(r) => State() == r && record == Some(r.legs[LegKey(f, receiver)])
    {
      var key := LegKey(f, receiver);
      if key !in legs {
        return None;
      }
      legs := legs[key := legs[key].(accepted := true)];
      return Some(legs[key]);
    }

    method AcceptedSenderLegs(f: Uuid, sender: Uuid) returns (keys: set<LegKey>)
      ensures keys == AcceptedLegs(State(), f, sender)
    {
      keys := set k | k in legs && legs[k].fileId == f && legs[k].sender == sender && legs[k].accepted;
    }

    /** One pass collects the old ids, a second rewrites the legs, then the index is corrected id by id. */
    method SetCompleteRequestId(f: Uuid, rid: RequestId) returns (found: bool)
      modifies this
      ensures match SetComplete(old(State()), f, rid)
              case None => !found && State() == old(State())
              case Some(r) => found && State() == r
    {
      var keys := set k | k in legs && k.fileId == f;
      if keys == {} {
        return false;
      }
      var oldIds := set k | k in keys :: legs[k].requestId;
      assert oldIds == RequestIds(State(), LegsOf(State(), f));
      RewriteLegs(keys, rid);
      ForgetIds(oldIds);
      byRequestId := byRequestId[rid := f];
      return true;
    }

    method RewriteLegs(keys: set<LegKey>, rid: RequestId)
      requires keys <= legs.Keys
      modifies this`legs
      ensures legs == map k | k in old(legs) :: if k in keys then old(legs)[k].(requestId := rid) else old(legs)[k]
    {
      var todo := keys;
      while todo != {}
        invariant todo <= keys && legs.Keys == old(legs).Keys
        invariant forall k :: k in legs ==>
                    legs[k] == if k in keys && k !in todo then old(legs)[k].(requestId := rid) else old(legs)[k]
        decreases |todo|
      {
        var k :| k in todo;
        legs := legs[k := legs[k].(requestId := rid)];
        todo := todo - {k};
      }
    }

    method ForgetIds(ids: set<RequestId>)
      modifies this`byRequestId
      ensures byRequestId == old(byRequestId) - ids
    {
      var todo := ids;
      while todo != {}
        invariant todo <= ids && byRequestId == old(byRequestId) - (ids - todo)
        decreases |todo|
      {
        var q :| q in todo;
        byRequestId := byRequestId - {q};
        todo := todo - {q};
      }
      assert ids - todo == ids;
    }

    /** The loop the three removals share: take legs out one by one, then their ids out of the index. */
    method RemoveKeys(keys: set<LegKey>) returns (removed: seq<TransferRecord>, ghost order: seq<LegKey>)
      requires keys <= legs.Keys
      modifies this
      ensures State() == Drop(old(State()), keys)
      ensures Lists(order, keys) && Records(removed, order, old(State()))
    {
      ghost var before := State();
      var todo := keys;
      removed, order := [], [];
      while todo != {}
        invariant todo <= keys && legs == before.legs - (keys - todo) && byRequestId == before.index
        invariant Lists(order, keys - todo) && Records(removed, order, before)
        decreases |todo|
      {
        var k :| k in todo;
        removed := removed + [legs[k]];
        order := order + [k];
        legs := legs - {k};
        todo := todo - {k};
      }
      assert keys - todo == keys;
      for i := 0 to |removed|
        invariant legs == before.legs - keys
        invariant byRequestId == before.index - (set j | 0 <= j < i :: removed[j].requestId)
      {
        byRequestId := byRequestId - {removed[i].requestId};
      }
      ListedIds(before, keys, order, removed);
    }

    method RemoveFile(f: Uuid)
      modifies this
      ensures State() == RemoveByFile(old(State()), f)
    {
      var keys := set k | k in legs && k.fileId == f;
      var _, _ := RemoveKeys(keys);
    }

    method RemoveRequest(rid: RequestId)
      modifies this
      ensures State() == RemoveByRequest(old(State()), rid)
    {
      if rid !in byRequestId {
        return;
      }
      var f := byRequestId[rid];
      byRequestId := byRequestId - {rid};
      ghost var before := legs;
      var keys := set k | k in legs && k.fileId == f;
      var todo := keys;
      while todo != {}
        invariant todo <= keys && legs == before - (keys - todo) && byRequestId == old(byRequestId) - {rid}
        decreases |todo|
      {
        var k :| k in todo;
        legs := legs - {k};
        todo := todo - {k};
      }
      assert keys - todo == keys;
    }

    method RemoveConnection(c: Uuid) returns (removed: seq<TransferRecord>, ghost order: seq<LegKey>)
      modifies this
      ensures State() == RemoveByConnection(old(State()), c)
      ensures Lists(order, LegsNaming(old(State()), c)) && Records(removed, order, old(State()))
    {
      var keys := set k | k in legs && (legs[k].sender == c || legs[k].receiver == c);
      removed, order := RemoveKeys(keys);
    }
  }

  /** The order lists exactly these keys, each once. */
  ghost predicate Lists(order: seq<LegKey>, keys: set<LegKey>) {
    && (forall k :: k in order <==> k in keys)
    && (forall i, j :: 0 <= i < j < |order| ==> order[i] != order[j])
  }

  ghost predicate Records(records: seq<TransferRecord>, order: seq<LegKey>, r: Registry) {
    && |records| == |order|
    && forall i :: 0 <= i < |order| ==> order[i] in r.legs && records[i] == r.legs[order[i]]
  }

  lemma ListedIds(r: Registry, keys: set<LegKey>, order: seq<LegKey>, records: seq<TransferRecord>)
    requires keys <= r.legs.Keys && Lists(order, keys) && Records(records, order, r)
    ensures (set j | 0 <= j < |records| :: records[j].requestId) == RequestIds(r, keys)
  {
    forall k | k in keys
      ensures r.legs[k].requestId in set j | 0 <= j < |records| :: records[j].requestId
    {
      var j :| 0 <= j < |order| && order[j] == k;
      assert records[j].requestId == r.legs[k].requestId;
    }
    forall j | 0 <= j < |records|
      ensures records[j].requestId in RequestIds(r, keys)
    {
      assert order[j] in order;
    }
  }
}
