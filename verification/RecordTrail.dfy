/**
 * Where every encrypted record comes from, when a save commits, and exactly which records can be read. Write `k` of a
 * run is judged in the ledger the `k` writes before it lead to.
 */
module RecordTrail {
  import opened Common
  import opened RecordHistory

  ghost function At(writes: seq<Write>, k: nat): Ledger
    requires k <= |writes|
  {
    Execute(EMPTY, writes[..k])
  }

  lemma {:induction false} ExecuteSnoc(l: Ledger, writes: seq<Write>, w: Write)
    ensures Execute(l, writes + [w]) == Step(Execute(l, writes), w)
    decreases |writes|
  {
    if writes == [] {
      assert ([] + [w])[1..] == [];
      assert Execute(Step(l, w), []) == Step(l, w);
    } else {
      assert (writes + [w])[1..] == writes[1..] + [w];
      ExecuteSnoc(Step(l, writes[0]), writes[1..], w);
    }
  }

  lemma Last(writes: seq<Write>)
    requires writes != []
    ensures At(writes, |writes|) == Step(At(writes, |writes| - 1), writes[|writes| - 1])
  {
    var n := |writes| - 1;
    assert writes[..n] + [writes[n]] == writes[..n + 1];
    ExecuteSnoc(EMPTY, writes[..n], writes[n]);
  }

  /** A save commits exactly when it carries the present key version, a fresh id and the newest revision of its key,
      zero for a new key; it then becomes the head of that key, and no other record or head changes. */
  lemma SaveExactly(l: Ledger, key: Key, expected: nat, keyVersion: nat, id: Id)
    requires Good(l)
    ensures var w := Save(key, expected, keyVersion, id);
      (Apply(l, w).Done? <==> keyVersion == l.keyVersion && id !in l.records && expected == TopRevision(l, key)) &&
      (Apply(l, w).Done? ==> (
        var l' := Step(l, w);
        id in l'.records && l'.records == l.records[id := l'.records[id]] && l'.heads == l.heads[key := id] &&
        l'.keyVersion == l.keyVersion && TopRevision(l', key) == expected + 1))
  {
    if key in l.heads {
      assert HeadOf(l, key) && Linked(l, l.heads[key]);
    }
  }

  /** Write `k` is the save that created record `id` as `r`. */
  ghost predicate Saves(writes: seq<Write>, k: nat, id: Id, r: Record) {
    k < |writes| && r.revision >= 1 && writes[k] == Save(r.key, r.revision - 1, r.keyVersion, id) &&
    Apply(At(writes, k), writes[k]).Done? && r.keyVersion == At(writes, k).keyVersion &&
    r.previous == if r.key in At(writes, k).heads then Some(At(writes, k).heads[r.key]) else None
  }

  /** In every run each record was created by one committed save and says exactly what that save said: its key, the
      revision after the one it expected, the key version of that moment, and the head it replaced. */
  lemma {:induction false} SavedBy(writes: seq<Write>, id: Id) returns (k: nat)
    requires id in Execute(EMPTY, writes).records
    ensures Saves(writes, k, id, Execute(EMPTY, writes).records[id])
    decreases |writes|
  {
    assert writes[..|writes|] == writes;
    if writes == [] {
      assert false;
    } else {
      var n := |writes| - 1;
      Last(writes);
      if id in At(writes, n).records {
        k := SavedBy(writes[..n], id);
        assert writes[..n][..k] == writes[..k];
        ExecuteGood(EMPTY, writes[..n]);
        StepGood(At(writes, n), writes[n]);
      } else {
        k := n;
      }
    }
  }

  /** How many key rotations, each from the version of its moment, happened along a run. */
  function Rotations(l: Ledger, writes: seq<Write>): nat
    decreases |writes|
  {
    if writes == [] then 0 else
    var rotated := writes[0] == RotateKey(l.keyVersion);
    (if rotated then 1 else 0) + Rotations(Step(l, writes[0]), writes[1..])
  }

  lemma {:induction false} KeyVersionCounts(l: Ledger, writes: seq<Write>)
    ensures Execute(l, writes).keyVersion == l.keyVersion + Rotations(l, writes)
    decreases |writes|
  {
    if writes != [] {
      KeyVersionCounts(Step(l, writes[0]), writes[1..]);
    }
  }

  /** So a record is encrypted under the key version of its own time: one more than the rotations before its save. */
  lemma EncryptedUnder(writes: seq<Write>, id: Id) returns (k: nat)
    requires id in Execute(EMPTY, writes).records
    ensures Saves(writes, k, id, Execute(EMPTY, writes).records[id])
    ensures Execute(EMPTY, writes).records[id].keyVersion == 1 + Rotations(EMPTY, writes[..k])
  {
    k := SavedBy(writes, id);
    KeyVersionCounts(EMPTY, writes[..k]);
  }

  /** On every reachable ledger a record is readable exactly when it exists, is the head or is asked for as history,
      and fewer than a thousand records lie between it and its head. */
  lemma ReadableExactly(writes: seq<Write>, id: Id, historical: bool)
    ensures var l := Execute(EMPTY, writes);
      Readable(l, id, historical) <==>
        id in l.records && (historical || IsHead(l, id)) &&
        TopRevision(l, l.records[id].key) - l.records[id].revision < 1000
  {
    ExecuteGood(EMPTY, writes);
    var l := Execute(EMPTY, writes);
    if id in l.records {
      assert Linked(l, id);
      var key := l.records[id].key;
      assert HeadOf(l, key);
      FindsExactly(l, l.heads[key], id, 0);
    }
  }
}
