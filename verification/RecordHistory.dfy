/**
 * The encrypted record index with its revision chains, and the walk that collects every record
 * behind the current heads. Record ids are numbers; their order stands for the order of the
 * printed ids.
 */
module RecordHistory {
  import opened Common

  type Id = nat
  type Key = nat
  datatype Record = Record(key: Key, revision: nat, keyVersion: nat, previous: Option<Id>)
  datatype Ledger = Ledger(records: map<Id, Record>, heads: map<Key, Id>, keyVersion: nat)

  const EMPTY := Ledger(map[], map[], 1)
  const DEPTH := 1000

  datatype Write = Save(key: Key, expected: nat, keyVersion: nat, id: Id) | RotateKey(expected: nat)

  /** A save appends an immutable record behind the current head of its key; `id` is a fresh object id. */
  function Apply(l: Ledger, w: Write): Commit<Ledger> {
    match w
    case RotateKey(expected) => if l.keyVersion != expected then Abort else Done(l.(keyVersion := l.keyVersion + 1))
    case Save(key, expected, keyVersion, id) =>
      if keyVersion != l.keyVersion || id in l.records then Abort else
      if key in l.heads && !(l.heads[key] in l.records && l.records[l.heads[key]].revision == expected) then Abort else
      if key !in l.heads && expected != 0 then Abort else
      var previous := if key in l.heads then Some(l.heads[key]) else None;
      Done(l.(records := l.records[id := Record(key, expected + 1, keyVersion, previous)], heads := l.heads[key := id]))
  }

  function Step(l: Ledger, w: Write): Ledger {
    match Apply(l, w)
    case Done(l') => l'
    case Abort => l
  }

  function Execute(l: Ledger, writes: seq<Write>): Ledger
    decreases |writes|
  {
    if writes == [] then l else Execute(Step(l, writes[0]), writes[1..])
  }

  // ------------------------------------------------------------ reachable ledgers

  ghost predicate Linked(l: Ledger, id: Id)
    requires id in l.records
  {
    var r := l.records[id];
    r.revision >= 1 && (r.previous.None? <==> r.revision == 1) &&
    (r.previous.Some? ==> (
      r.previous.value in l.records && l.records[r.previous.value].key == r.key &&
        l.records[r.previous.value].revision == r.revision - 1)) &&
    r.key in l.heads && l.heads[r.key] in l.records && r.revision <= l.records[l.heads[r.key]].revision
  }

  /** Chains descend by one to a first revision, heads are the newest, and a key has one record per revision. */
  ghost predicate Good(l: Ledger) {
    (forall id {:trigger Linked(l, id)} :: id in l.records ==> Linked(l, id)) &&
    (forall k {:trigger HeadOf(l, k)} :: k in l.heads ==> HeadOf(l, k)) &&
    Unique(l.records)
  }

  ghost predicate HeadOf(l: Ledger, k: Key) {
    k in l.heads && l.heads[k] in l.records && l.records[l.heads[k]].key == k
  }

  ghost predicate SameRevision(records: map<Id, Record>, a: Id, b: Id) {
    a in records && b in records && records[a].key == records[b].key && records[a].revision == records[b].revision
  }

  ghost predicate Unique(records: map<Id, Record>) {
    forall a, b {:trigger SameRevision(records, a, b)} :: SameRevision(records, a, b) ==> a == b
  }

  /** The newest revision saved under a key. */
  ghost function TopRevision(l: Ledger, k: Key): nat {
    if HeadOf(l, k) then l.records[l.heads[k]].revision else 0
  }

  ghost predicate IsHead(l: Ledger, id: Id) {
    id in l.records && l.records[id].key in l.heads && l.heads[l.records[id].key] == id
  }

  lemma SaveLinked(l: Ledger, w: Write, id: Id)
    requires Good(l) && w.Save? && Apply(l, w).Done? && id in Apply(l, w).state.records
    ensures Linked(Apply(l, w).state, id)
    ensures id != w.id ==> id in l.records && (l.records[id].key != w.key || l.records[id].revision <= w.expected)
  {
    if w.key in l.heads {
      assert HeadOf(l, w.key) && Linked(l, l.heads[w.key]);
    }
    if id != w.id {
      assert Linked(l, id);
      assert HeadOf(l, l.records[id].key);
    }
  }

  lemma SaveUnique(l: Ledger, w: Write)
    requires Good(l) && w.Save? && Apply(l, w).Done?
    ensures Unique(Apply(l, w).state.records)
  {
    var records := Apply(l, w).state.records;
    forall a, b | SameRevision(records, a, b) ensures a == b {
      SaveLinked(l, w, a);
      SaveLinked(l, w, b);
      assert a != w.id && b != w.id ==> SameRevision(l.records, a, b);
    }
  }

  lemma StepGood(l: Ledger, w: Write)
    requires Good(l)
    ensures Good(Step(l, w)) && l.records.Keys <= Step(l, w).records.Keys
    ensures forall id :: id in l.records ==> Step(l, w).records[id] == l.records[id]
  {
    if Apply(l, w).Done? {
      var l' := Step(l, w);
      forall k | k in l'.heads ensures HeadOf(l', k) {
        if k in l.heads { assert HeadOf(l, k); }
      }
      if w.Save? {
        SaveUnique(l, w);
        forall id | id in l'.records ensures Linked(l', id) {
          SaveLinked(l, w, id);
        }
      } else {
        forall id | id in l'.records ensures Linked(l', id) {
          assert Linked(l, id);
        }
      }
    }
  }

  lemma {:induction false} ExecuteGood(l: Ledger, writes: seq<Write>)
    requires Good(l)
    ensures Good(Execute(l, writes)) && l.records.Keys <= Execute(l, writes).records.Keys
    ensures forall id :: id in l.records ==> Execute(l, writes).records[id] == l.records[id]
    decreases |writes|
  {
    if writes != [] {
      StepGood(l, writes[0]);
      ExecuteGood(Step(l, writes[0]), writes[1..]);
    }
  }

  // ------------------------------------------------------------ reading one record

  /** Walk from the head towards the requested record, checking each link, at most a thousand records. */
  function Finds(l: Ledger, key: Key, at: Id, expected: int, target: Id, seen: nat): bool
    requires target in l.records
    decreases DEPTH - seen
  {
    at in l.records && seen < DEPTH &&
    var r := l.records[at];
    r.key == key && r.revision == expected && (r.revision == 1 <==> r.previous.None?) &&
    (at == target || (r.previous.Some? && r.revision > l.records[target].revision &&
      Finds(l, key, r.previous.value, expected - 1, target, seen + 1)))
  }

  /** A current read must ask for the head itself; a historical one for a record behind it. */
  predicate Readable(l: Ledger, id: Id, historical: bool) {
    id in l.records && l.records[id].key in l.heads && l.heads[l.records[id].key] in l.records &&
    var head := l.heads[l.records[id].key];
    (historical || head == id) && Finds(l, l.records[id].key, head, l.records[head].revision, id, 0)
  }

  lemma {:induction false} FindsExactly(l: Ledger, at: Id, target: Id, seen: nat)
    requires Good(l) && at in l.records && target in l.records && l.records[at].key == l.records[target].key
    requires l.records[target].revision <= l.records[at].revision
    ensures Finds(l, l.records[at].key, at, l.records[at].revision, target, seen) <==>
      seen + l.records[at].revision - l.records[target].revision < DEPTH
    decreases l.records[at].revision
  {
    assert Linked(l, at);
    if at != target && seen < DEPTH {
      assert l.records[target].revision < l.records[at].revision by { assert SameRevision(l.records, at, target) ==>
        at == target; }
      assert Linked(l, target);
      FindsExactly(l, l.records[at].previous.value, target, seen + 1);
    }
  }

  // ------------------------------------------------------------ one chain

  /** From a head, strictly consecutive descending revisions to a record without predecessor. */
  ghost predicate IsChain(l: Ledger, head: Id, rows: seq<Id>) {
    rows != [] && rows[0] == head && (forall i :: 0 <= i < |rows| ==> rows[i] in l.records) &&
    (forall i :: 0 <= i < |rows| - 1 ==>
      l.records[rows[i]].previous == Some(rows[i + 1]) && l.records[rows[i + 1]].revision ==
        l.records[rows[i]].revision - 1) &&
    l.records[rows[|rows| - 1]].previous.None?
  }

  lemma {:induction false} ChainDescends(l: Ledger, rows: seq<Id>, i: nat)
    requires rows != [] && i < |rows| && (forall i :: 0 <= i < |rows| ==> rows[i] in l.records)
    requires forall i :: 0 <= i < |rows| - 1 ==> l.records[rows[i + 1]].revision == l.records[rows[i]].revision - 1
    ensures l.records[rows[i]].revision == l.records[rows[0]].revision - i
  {
    if i > 0 {
      ChainDescends(l, rows, i - 1);
    }
  }

  /** No record appears twice in a chain. */
  lemma ChainDistinct(l: Ledger, head: Id, rows: seq<Id>, i: nat, j: nat)
    requires IsChain(l, head, rows) && i < |rows| && j < |rows| && rows[i] == rows[j]
    ensures i == j
  {
    ChainDescends(l, rows, i);
    ChainDescends(l, rows, j);
  }

  lemma {:induction false} ChainKey(l: Ledger, head: Id, rows: seq<Id>, i: nat)
    requires Good(l) && IsChain(l, head, rows) && i < |rows|
    ensures l.records[rows[i]].key == l.records[head].key
  {
    if i > 0 {
      ChainKey(l, head, rows, i - 1);
      assert Linked(l, rows[i - 1]);
    }
  }

  /** In a reachable ledger the chain of a head is every record of its key. */
  lemma ChainComplete(l: Ledger, key: Key, rows: seq<Id>, id: Id)
    requires Good(l) && key in l.heads && IsChain(l, l.heads[key], rows)
    ensures id in rows <==> id in l.records && l.records[id].key == key
    ensures |rows| == l.records[l.heads[key]].revision
  {
    var last := |rows| - 1;
    assert HeadOf(l, key);
    assert Linked(l, rows[last]);
    ChainDescends(l, rows, last);
    if id in rows {
      var i :| 0 <= i < |rows| && rows[i] == id;
      ChainKey(l, l.heads[key], rows, i);
    }
    if id in l.records && l.records[id].key == key {
      assert Linked(l, id);
      var i := l.records[l.heads[key]].revision - l.records[id].revision;
      ChainDescends(l, rows, i);
      ChainKey(l, l.heads[key], rows, i);
      assert SameRevision(l.records, rows[i], id);
    }
  }

  /** The walk behind one head. It works on any answers; on a reachable ledger it succeeds exactly up to a thousand
      revisions. */
  method Walk(l: Ledger, head: Id) returns (r: Option<seq<Id>>)
    ensures r.Some? ==> IsChain(l, head, r.value) && |r.value| <= DEPTH
    ensures Good(l) && IsHead(l, head) ==> (r.Some? <==> l.records[head].revision <= DEPTH)
  {
    ghost var sound := Good(l) && IsHead(l, head);
    var pointer, depth := head, 0;
    var rows: seq<Id> := [];
    while true
      invariant 0 <= depth == |rows| && depth <= DEPTH
      invariant depth == 0 ==> pointer == head
      invariant forall i :: 0 <= i < depth ==> rows[i] in l.records
      invariant depth > 0 ==>
        rows[0] == head && pointer in l.records && l.records[rows[depth - 1]].previous == Some(pointer)
      invariant depth > 0 ==> l.records[pointer].revision == l.records[rows[depth - 1]].revision - 1
      invariant forall i :: 0 <= i < depth - 1 ==>
        l.records[rows[i]].previous == Some(rows[i + 1]) &&
          l.records[rows[i + 1]].revision == l.records[rows[i]].revision - 1
      invariant sound ==>
        pointer in l.records && l.records[pointer].key == l.records[head].key &&
          l.records[pointer].revision == l.records[head].revision - depth
      decreases DEPTH - depth
    {
      if sound { assert Linked(l, pointer); }
      if depth >= DEPTH {
        return None;
      }
      if sound { FindsExactly(l, head, pointer, 0); }
      if !Readable(l, pointer, depth > 0) {
        return None;
      }
      rows := rows + [pointer];
      var raw := l.records[pointer];
      if raw.previous.None? {
        return Some(rows);
      }
      if raw.previous.value !in l.records || l.records[raw.previous.value].revision != raw.revision - 1 {
        return None;
      }
      pointer := raw.previous.value;
      depth := depth + 1;
    }
  }

  // ------------------------------------------------------------ all chains, sorted

  ghost predicate Sorted(s: seq<Id>) { forall i, j :: 0 <= i < j < |s| ==> s[i] <= s[j] }

  function Insert(s: seq<Id>, x: Id): seq<Id> {
    if s == [] || x <= s[0] then [x] + s else [s[0]] + Insert(s[1..], x)
  }

  function Sort(s: seq<Id>): seq<Id> {
    if s == [] then [] else Insert(Sort(s[1..]), s[0])
  }

  lemma {:induction false} InsertKeeps(s: seq<Id>, x: Id)
    ensures multiset(Insert(s, x)) == multiset(s) + multiset{x}
  {
    if s != [] && x > s[0] {
      InsertKeeps(s[1..], x);
      assert s == [s[0]] + s[1..];
    }
  }

  lemma {:induction false} InsertSorted(s: seq<Id>, x: Id)
    requires Sorted(s)
    ensures Sorted(Insert(s, x))
  {
    if s != [] && x > s[0] {
      InsertSorted(s[1..], x);
      var rest := Insert(s[1..], x);
      InsertKeeps(s[1..], x);
      forall i | 0 <= i < |rest| ensures s[0] <= rest[i] {
        assert rest[i] in multiset(rest);
        assert rest[i] == x || rest[i] in s[1..];
      }
    }
  }

  lemma {:induction false} SortOk(s: seq<Id>)
    ensures multiset(Sort(s)) == multiset(s) && Sorted(Sort(s))
  {
    if s != [] {
      SortOk(s[1..]);
      InsertKeeps(Sort(s[1..]), s[0]);
      InsertSorted(Sort(s[1..]), s[0]);
      assert s == [s[0]] + s[1..];
    }
  }

  /** The listing of the current heads: each key once, in any order. */
  ghost predicate Lists(l: Ledger, keys: seq<Key>) {
    (forall k :: k in keys <==> k in l.heads) && forall i, j :: 0 <= i < j < |keys| ==> keys[i] != keys[j]
  }

  /** `rows` holds exactly the records of the listed keys, each once. */
  ghost predicate Covers(l: Ledger, keys: seq<Key>, rows: seq<Id>) {
    forall id {:trigger multiset(rows)[id]} :: multiset(rows)[id] == if id in l.records &&
      l.records[id].key in keys then 1 else 0
  }

  lemma {:induction false} DistinctOnce(rows: seq<Id>, id: Id)
    requires forall i, j :: 0 <= i < j < |rows| ==> rows[i] != rows[j]
    ensures multiset(rows)[id] == if id in rows then 1 else 0
  {
    if rows != [] {
      DistinctOnce(rows[1..], id);
      assert rows == [rows[0]] + rows[1..];
    }
  }

  lemma CoversMore(l: Ledger, keys: seq<Key>, key: Key, rows: seq<Id>, chain: seq<Id>)
    requires Good(l) && key in l.heads && key !in keys && Covers(l, keys, rows) && IsChain(l, l.heads[key], chain)
    ensures Covers(l, keys + [key], rows + chain)
  {
    forall i, j | 0 <= i < j < |chain| ensures chain[i] != chain[j] {
      if chain[i] == chain[j] { ChainDistinct(l, l.heads[key], chain, i, j); }
    }
    forall id ensures multiset(rows + chain)[id] == if id in l.records && l.records[id].key in keys + [key] then 1
      else 0 {
      DistinctOnce(chain, id);
      ChainComplete(l, key, chain, id);
    }
  }

  ghost predicate Shallow(l: Ledger, keys: seq<Key>) {
    forall i :: 0 <= i < |keys| ==>
      keys[i] in l.heads && l.heads[keys[i]] in l.records && l.records[l.heads[keys[i]]].revision <= DEPTH
  }

  lemma CollectStep(l: Ledger, keys: seq<Key>, n: nat, rows: seq<Id>, chain: Option<seq<Id>>)
    requires Good(l) && Lists(l, keys) && n < |keys| && Covers(l, keys[..n], rows) && Shallow(l, keys[..n])
    requires keys[n] in l.heads && (chain.Some? ==> IsChain(l, l.heads[keys[n]], chain.value))
    requires IsHead(l, l.heads[keys[n]]) ==> (chain.Some? <==> l.records[l.heads[keys[n]]].revision <= DEPTH)
    ensures chain.Some? ==> Covers(l, keys[..n + 1], rows + chain.value) && Shallow(l, keys[..n + 1])
    ensures chain.None? ==> !Shallow(l, keys)
  {
    assert HeadOf(l, keys[n]);
    assert keys[..n + 1] == keys[..n] + [keys[n]];
    if chain.Some? {
      CoversMore(l, keys[..n], keys[n], rows, chain.value);
    }
  }

  function Flatten(chains: seq<seq<Id>>): seq<Id> {
    if chains == [] then [] else Flatten(chains[..|chains| - 1]) + chains[|chains| - 1]
  }

  /** One chain of at most a thousand rows per listed head. */
  ghost predicate Walked(l: Ledger, keys: seq<Key>, chains: seq<seq<Id>>) {
    |chains| == |keys| &&
    forall i {:trigger chains[i]} :: 0 <= i < |keys| ==>
      keys[i] in l.heads && IsChain(l, l.heads[keys[i]], chains[i]) && |chains[i]| <= DEPTH
  }

  lemma WalkedOneMore(l: Ledger, keys: seq<Key>, n: nat, chains: seq<seq<Id>>, chain: seq<Id>)
    requires n < |keys| && Walked(l, keys[..n], chains)
    requires keys[n] in l.heads && IsChain(l, l.heads[keys[n]], chain) && |chain| <= DEPTH
    ensures Walked(l, keys[..n + 1], chains + [chain]) && Flatten(chains + [chain]) == Flatten(chains) + chain
  {
    var some, all := keys[..n + 1], chains + [chain];
    assert all[..|chains|] == chains;
    forall i {:trigger all[i]} | 0 <= i < |some|
      ensures some[i] in l.heads && IsChain(l, l.heads[some[i]], all[i]) && |all[i]| <= DEPTH
    {
      if i < n {
        assert chains[i] == all[i] && keys[..n][i] == some[i];
      } else {
        assert all[i] == chain && some[i] == keys[n];
      }
    }
  }

  /** The rows behind every listed head, one chain after another. */
  method Collect(l: Ledger, keys: seq<Key>) returns (r: Option<seq<Id>>)
    requires Lists(l, keys)
    ensures r.Some? ==> exists chains :: Walked(l, keys, chains) && r.value == Flatten(chains)
    ensures Good(l) ==> (r.Some? <==> Shallow(l, keys)) && (r.Some? ==> Covers(l, keys, r.value))
  {
    ghost var good := Good(l);
    ghost var chains: seq<seq<Id>> := [];
    var rows: seq<Id> := [];
    var n := 0;
    while n < |keys|
      invariant 0 <= n <= |keys|
      invariant Walked(l, keys[..n], chains) && rows == Flatten(chains)
      invariant good ==> Covers(l, keys[..n], rows) && Shallow(l, keys[..n])
    {
      assert keys[n] in keys;
      var chain := Walk(l, l.heads[keys[n]]);
      if good {
        CollectStep(l, keys, n, rows, chain);
      }
      if chain.None? {
        return None;
      }
      WalkedOneMore(l, keys, n, chains, chain.value);
      chains := chains + [chain.value];
      rows := rows + chain.value;
      n := n + 1;
    }
    assert keys[..n] == keys;
    return Some(rows);
  }

  lemma CoversAll(l: Ledger, keys: seq<Key>, rows: seq<Id>)
    requires Good(l) && Lists(l, keys) && Covers(l, keys, rows)
    ensures HistoryOf(l, rows)
  {
    forall id ensures multiset(rows)[id] == if id in l.records then 1 else 0 {
      if id in l.records { assert Linked(l, id); }
    }
  }

  lemma ShallowAll(l: Ledger, keys: seq<Key>)
    requires Good(l) && Lists(l, keys)
    ensures Shallow(l, keys) <==> forall k :: k in l.heads ==> TopRevision(l, k) <= DEPTH
  {
    if Shallow(l, keys) {
      forall k | k in l.heads ensures TopRevision(l, k) <= DEPTH {
        assert k in keys;
      }
    } else {
      var i :| 0 <= i < |keys| && !(keys[i] in l.heads && l.heads[keys[i]] in l.records &&
        l.records[l.heads[keys[i]]].revision <= DEPTH);
      assert keys[i] in keys && HeadOf(l, keys[i]);
      assert TopRevision(l, keys[i]) > DEPTH;
    }
  }

  /** The whole history: on any answers a sorted permutation of one chain per head. On a reachable ledger it succeeds
      exactly when no head is older than a thousand revisions, and then the result is every record ever saved,
      exactly once, sorted by id. */
  method History(l: Ledger, keys: seq<Key>) returns (r: Option<seq<Id>>)
    requires Lists(l, keys)
    ensures r.Some? ==> Sorted(r.value)
    ensures r.Some? ==> exists chains :: Walked(l, keys, chains) && multiset(r.value) == multiset(Flatten(chains))
    ensures Good(l) ==> (r.Some? <==> forall k :: k in l.heads ==> TopRevision(l, k) <= DEPTH)
    ensures Good(l) && r.Some? ==> HistoryOf(l, r.value)
  {
    var rows := Collect(l, keys);
    if Good(l) {
      ShallowAll(l, keys);
    }
    if rows.None? {
      return None;
    }
    SortOk(rows.value);
    if Good(l) {
      CoversAll(l, keys, rows.value);
    }
    return Some(Sort(rows.value));
  }

  /** What `History` returns: every record exactly once. */
  ghost predicate HistoryOf(l: Ledger, rows: seq<Id>) {
    forall id {:trigger multiset(rows)[id]} :: multiset(rows)[id] == if id in l.records then 1 else 0
  }

  /** Appending revisions, from any reachable ledger and over any number of writes and key rotations, never drops or
      changes an earlier row. */
  lemma AppendingKeepsRows(writes: seq<Write>, more: seq<Write>, rows: seq<Id>, later: seq<Id>)
    requires HistoryOf(Execute(EMPTY, writes), rows) && HistoryOf(Execute(Execute(EMPTY, writes), more), later)
    ensures forall id :: id in rows ==> id in later
    ensures forall id :: id in rows ==>
      id in Execute(EMPTY, writes).records && id in Execute(Execute(EMPTY, writes), more).records &&
      Execute(Execute(EMPTY, writes), more).records[id] == Execute(EMPTY, writes).records[id]
  {
    ExecuteGood(EMPTY, writes);
    ExecuteGood(Execute(EMPTY, writes), more);
    forall id | id in rows ensures id in Execute(EMPTY, writes).records && id in later {
      assert id in multiset(rows);
      assert multiset(later)[id] == 1;
    }
  }
}
