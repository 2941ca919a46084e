/** The in-memory store of interrupts: a bounded map that a resume and an expiry race over. */
module InterruptStore {
  import opened Common

  datatype Status = Open | Resolved | Expired

  datatype Record = Record(id: string, thread: string, group: string, status: Status)

  type Records = Table<string, Record>

  /** The keys are those of the items, each once. */
  ghost predicate Proper(t: Records) {
    t.Valid() && NoRepeats(t.keys)
  }

  predicate NoRepeats(keys: seq<string>) { forall i, j :: 0 <= i < j < |keys| ==> keys[i] != keys[j] }

  predicate IsOpen(t: Records, id: string) { id in t.items && t.items[id].status == Open }

  // ---- eviction ----

  predicate IsSettled(t: Records, id: string) { id in t.items && t.items[id].status != Open }

  function CountSettled(t: Records, keys: seq<string>): nat {
    if keys == [] then 0
    else CountSettled(t, keys[..|keys| - 1]) + if IsSettled(t, keys[|keys| - 1]) then 1 else 0
  }

  /** The keys that stay when the first `excess` settled ones go. */
  function Kept(t: Records, keys: seq<string>, excess: int): seq<string> {
    if keys == [] || excess <= 0 then keys
    else if IsSettled(t, keys[0]) then Kept(t, keys[1..], excess - 1)
    else [keys[0]] + Kept(t, keys[1..], excess)
  }

  function Evicted(t: Records, max: nat): Records {
    var keys := Kept(t, t.keys, CountSettled(t, t.keys) - max);
    Table(keys, map id | id in t.items && id in keys :: t.items[id])
  }

  // ---- the operations, as functions of the records ----

  function PutAll(t: Records, records: seq<Record>): Records {
    if records == [] then t
    else PutAll(t, records[..|records| - 1]).Put(records[|records| - 1].id, records[|records| - 1])
  }

  predicate AllOpen(t: Records, ids: seq<string>) { forall id :: id in ids ==> IsOpen(t, id) }

  /** The records with some of them moved to a status. */
  function Moved(t: Records, ids: seq<string>, status: Status): Records {
    Table(t.keys, map id | id in t.items :: if id in ids then t.items[id].(status := status) else t.items[id])
  }

  function Settling(t: Records, max: nat, ids: seq<string>, status: Status): (Records, bool) {
    if AllOpen(t, ids) then (Evicted(Moved(t, ids, status), max), true) else (t, false)
  }

  /** Of the listed records, those a resume resolved. */
  function ResolvedAmong(t: Records, ids: seq<string>): seq<string> {
    if ids == [] then []
    else
      var last := ids[|ids| - 1];
      ResolvedAmong(t, ids[..|ids| - 1]) +
      if last in t.items && t.items[last].status == Resolved then [last] else []
  }

  // ---- the store ----

  class InMemoryInterruptStore {
    var records: Records
    const maxRecords: nat

    constructor (maxRecords: nat)
      requires maxRecords >= 1
      ensures records == EmptyTable() && this.maxRecords == maxRecords
    {
      records := EmptyTable();
      this.maxRecords := maxRecords;
    }

    /** Add records under new ids; a taken id leaves the store as it was. */
    method Put(added: seq<Record>) returns (ok: bool)
      modifies this
      ensures ok <==> forall r :: r in added ==> r.id !in old(records).items
      ensures records == if ok then Evicted(PutAll(old(records), added), maxRecords) else old(records)
    {
      for k := 0 to |added|
        invariant records == old(records)
        invariant forall i :: 0 <= i < k ==> added[i].id !in records.items
      {
        if added[k].id in records.items {
          return false;
        }
      }
      for k := 0 to |added|
        invariant records == PutAll(old(records), added[..k])
      {
        assert added[..k + 1][..k] == added[..k];
        records := records.Put(added[k].id, added[k]);
      }
      assert added[..|added|] == added;
      Evict();
      return true;
    }

    /** Give all the ids a status, when every one names an open record; else change nothing. */
    method Settle(ids: seq<string>, status: Status) returns (ok: bool)
      modifies this
      ensures (records, ok) == Settling(old(records), maxRecords, ids, status)
    {
      if !AllOpen(records, ids) {
        return false;
      }
      for k := 0 to |ids|
        invariant records.keys == old(records).keys
        invariant records.items.Keys == old(records).items.Keys
        invariant forall id :: id in records.items ==>
          records.items[id] == if id in ids[..k] then old(records).items[id].(status := status) else old(records).items[id]
      {
        assert IsOpen(old(records), ids[k]);
        assert ids[..k + 1] == ids[..k] + [ids[k]];
        records := Table(records.keys, records.items[ids[k] := records.items[ids[k]].(status := status)]);
      }
      assert ids[..|ids|] == ids;
      assert records == Moved(old(records), ids, status);
      Evict();
      return true;
    }

    /** Open the listed records again that a resume resolved. */
    method Reopen(ids: seq<string>)
      modifies this
      ensures records == Moved(old(records), ResolvedAmong(old(records), ids), Open)
    {
      ghost var was := records;
      assert records == Moved(was, [], Open);
      for k := 0 to |ids|
        invariant records == Moved(was, ResolvedAmong(was, ids[..k]), Open)
      {
        assert ids[..k + 1][..k] == ids[..k];
        MoveOne(was, ResolvedAmong(was, ids[..k]), ids[k]);
        if ids[k] in records.items && records.items[ids[k]].status == Resolved {
          records := Table(records.keys, records.items[ids[k] := records.items[ids[k]].(status := Open)]);
        }
      }
      assert ids[..|ids|] == ids;
    }

    /** Forget settled records, from the first one put in on, until no more than the bound are left. */
    method Evict()
      modifies this
      ensures records == Evicted(old(records), maxRecords)
    {
      var settled := CountSettled(records, records.keys);
      ghost var was, excess := records, settled - maxRecords;
      var keys, kept := records.keys, [];
      var k := 0;
      while k < |keys| && settled > maxRecords
        invariant k <= |keys| && settled - maxRecords <= excess && records == was
        invariant Kept(was, keys, excess) == kept + Kept(was, keys[k..], settled - maxRecords)
        decreases |keys| - k
      {
        KeptStep(was, keys, k, settled - maxRecords);
        if IsSettled(records, keys[k]) {
          settled := settled - 1;
        } else {
          kept := kept + [keys[k]];
        }
        k := k + 1;
      }
      kept := kept + keys[k..];
      records := Table(kept, map id | id in records.items && id in kept :: records.items[id]);
    }
  }

  // ---- what the operations keep ----

  lemma {:induction false} KeptAre(t: Records, keys: seq<string>, excess: int)
    requires NoRepeats(keys)
    ensures NoRepeats(Kept(t, keys, excess))
    ensures forall id :: id in Kept(t, keys, excess) ==> id in keys
    ensures forall id :: id in keys && !IsSettled(t, id) ==> id in Kept(t, keys, excess)
  {
    if keys != [] && excess > 0 {
      KeptAre(t, keys[1..], if IsSettled(t, keys[0]) then excess - 1 else excess);
      assert keys == [keys[0]] + keys[1..];
    }
  }

  lemma {:induction false} CountFromFront(t: Records, keys: seq<string>)
    requires keys != []
    ensures CountSettled(t, keys) == CountSettled(t, keys[1..]) + if IsSettled(t, keys[0]) then 1 else 0
  {
    if |keys| > 1 {
      CountFromFront(t, keys[..|keys| - 1]);
      assert keys[..|keys| - 1][1..] == keys[1..][..|keys| - 2];
    } else {
      assert keys[..0] == [] && keys[1..] == [];
    }
  }

  lemma {:induction false} KeptCount(t: Records, keys: seq<string>, excess: int)
    requires excess <= CountSettled(t, keys)
    ensures CountSettled(t, Kept(t, keys, excess)) == CountSettled(t, keys) - if excess > 0 then excess else 0
  {
    if keys != [] && excess > 0 {
      CountFromFront(t, keys);
      if IsSettled(t, keys[0]) {
        KeptCount(t, keys[1..], excess - 1);
      } else {
        KeptCount(t, keys[1..], excess);
        CountFromFront(t, Kept(t, keys, excess));
      }
    }
  }

  lemma KeptStep(t: Records, keys: seq<string>, k: nat, excess: int)
    requires k < |keys| && excess > 0
    ensures Kept(t, keys[k..], excess) ==
            if IsSettled(t, keys[k]) then Kept(t, keys[k + 1..], excess - 1)
            else [keys[k]] + Kept(t, keys[k + 1..], excess)
  {
    assert keys[k..][1..] == keys[k + 1..];
  }

  /** Reopening one more record, or one that is reopened already, or one that is not resolved. */
  lemma MoveOne(was: Records, before: seq<string>, id: string)
    ensures var t := Moved(was, before, Open);
            var resolved := id in was.items && was.items[id].status == Resolved;
            Moved(was, before + if resolved then [id] else [], Open) ==
            if id in t.items && t.items[id].status == Resolved
            then Table(t.keys, t.items[id := t.items[id].(status := Open)]) else t
  {
    var t, u := Moved(was, before, Open), Moved(was, before + [id], Open);
    if id in was.items && was.items[id].status == Resolved {
      forall x | x in was.items && x != id ensures u.items[x] == t.items[x] {
      }
      if id !in before {
        assert u.items == t.items[id := t.items[id].(status := Open)];
      } else {
        assert u.items == t.items;
      }
    } else {
      assert before + [] == before;
    }
  }

  /** An eviction takes settled records only, the oldest, and only down to the bound. */
  lemma EvictionSparesOpen(t: Records, max: nat)
    requires Proper(t)
    ensures var r := Evicted(t, max);
            && Proper(r)
            && (forall id :: IsOpen(t, id) ==> IsOpen(r, id))
            && (forall id :: id in r.items ==> id in t.items && r.items[id] == t.items[id])
            && var n := CountSettled(t, t.keys); CountSettled(t, r.keys) == if n > max then max else n
  {
    KeptAre(t, t.keys, CountSettled(t, t.keys) - max);
    KeptCount(t, t.keys, CountSettled(t, t.keys) - max);
  }

  /** Once a record is settled, nobody settles it again: the second of two resumes loses. */
  lemma SecondSettleLoses(t: Records, max: nat, first: seq<string>, second: seq<string>, a: Status, b: Status)
    requires Proper(t) && a != Open
    requires Settling(t, max, first, a).1
    requires exists id :: id in first && id in second
    ensures !Settling(Settling(t, max, first, a).0, max, second, b).1
  {
    var id :| id in first && id in second;
    var moved := Moved(t, first, a);
    assert IsOpen(t, id);
    assert !IsOpen(moved, id);
    assert !IsOpen(Evicted(moved, max), id);
  }

  /** What a resume settled can be given back: the same records are open again. */
  lemma ReopenUndoesSettle(t: Records, ids: seq<string>)
    requires t.Valid() && AllOpen(t, ids)
    ensures var settled := Moved(t, ids, Resolved); Moved(settled, ResolvedAmong(settled, ids), Open) == t
  {
    var settled := Moved(t, ids, Resolved);
    forall id | id in ids ensures settled.items[id].status == Resolved {
      assert IsOpen(t, id);
    }
    AllResolved(settled, ids);
    forall id | id in t.items ensures id in ids ==> t.items[id].status == Open {
      if id in ids { assert IsOpen(t, id); }
    }
    assert Moved(settled, ids, Open).items == t.items;
  }

  lemma {:induction false} AllResolved(t: Records, ids: seq<string>)
    requires forall id :: id in ids ==> id in t.items && t.items[id].status == Resolved
    ensures ResolvedAmong(t, ids) == ids
  {
    if ids != [] {
      var n := |ids| - 1;
      AllResolved(t, ids[..n]);
      assert ids[n] in ids && ids == ids[..n] + [ids[n]];
    }
  }
}
