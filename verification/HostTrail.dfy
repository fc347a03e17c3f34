/**
 * What the directory of a managed Agent holds, told by the transactions that committed: exactly when each commits,
 * where every entry comes from, what started and settled it, and which rebind or revocation the registration reflects.
 * Transaction `k` of a run is judged in the state the `k` transactions before it lead to.
 */
module HostTrail {
  import opened Common
  import opened HostDirectory

  ghost function At(ops: seq<Op>, k: nat): Directory
    requires k <= |ops|
  {
    Execute(IMPORTED, ops[..k])
  }

  ghost predicate Commits(ops: seq<Op>, k: nat) { k < |ops| && Apply(At(ops, k), ops[k]).Done? }

  lemma {:induction false} ExecuteSnoc(d: Directory, ops: seq<Op>, op: Op)
    ensures Execute(d, ops + [op]) == Step(Execute(d, ops), op)
    decreases |ops|
  {
    if ops == [] {
      assert ([] + [op])[1..] == [];
      assert Execute(Step(d, op), []) == Step(d, op);
    } else {
      assert (ops + [op])[1..] == ops[1..] + [op];
      ExecuteSnoc(Step(d, ops[0]), ops[1..], op);
    }
  }

  lemma Last(ops: seq<Op>)
    requires ops != []
    ensures At(ops, |ops|) == Step(At(ops, |ops| - 1), ops[|ops| - 1])
  {
    var n := |ops| - 1;
    assert ops[..n] + [ops[n]] == ops[..n + 1];
    ExecuteSnoc(IMPORTED, ops[..n], ops[n]);
  }

  /** A transaction is judged the same in every longer run. */
  lemma Earlier(ops: seq<Op>, k: nat)
    requires ops != [] && k < |ops| - 1
    ensures At(ops, k) == At(ops[..|ops| - 1], k) && Commits(ops, k) == Commits(ops[..|ops| - 1], k)
  {
    assert ops[..|ops| - 1][..k] == ops[..k];
  }

  // ------------------------------------------------------------ exactly when a transaction commits

  /** No control execution is waiting for its settlement. */
  ghost predicate Idle(d: Directory) {
    forall i :: 0 <= i < |d.executions| && d.executions[i].control ==> d.executions[i].settled
  }

  lemma IdleExactly(d: Directory)
    requires Inv(d)
    ensures d.unsettledControl == 0 <==> Idle(d)
  {
    if d.unsettledControl == 0 {
      forall i | 0 <= i < |d.executions| && d.executions[i].control ensures d.executions[i].settled {
        SumAtLeast(d.executions, i, Open());
      }
    } else if Idle(d) {
      SumZero(d.executions, Open());
    }
  }

  /** A rebind commits exactly while no control execution is unsettled, one that names a version only for that version,
      and only the owner's confirmation may give control. */
  lemma RegistrationCommits(d: Directory, expected: nat, control: bool)
    requires Inv(d)
    ensures Apply(d, Rebind(control)).Done? <==> Idle(d) && !control
    ensures Apply(d, RebindAt(expected, control)).Done? <==> d.version == expected && Idle(d) && !control
    ensures Apply(d, ConfirmControl(expected)).Done? <==> d.version == expected && Idle(d)
    ensures Apply(d, Revoke).Done? <==> !d.revoked
  {
    IdleExactly(d);
  }

  /** A Run starts once, stops until it is over, and finishes once, with its own capability and a free result name. */
  lemma RunCommits(d: Directory, run: nat, cap: nat, unknownEffects: bool)
    requires Inv(d)
    ensures Apply(d, Begin(run)).Done? <==>
      run < |d.executions| && !d.executions[run].started && !d.executions[run].over
    ensures Apply(d, Stop(run)).Done? <==> run < |d.executions| && !d.executions[run].over
    ensures Apply(d, Finish(run, cap, unknownEffects)).Done? <==>
      run < |d.executions| && d.executions[run].started && !d.executions[run].over && d.executions[run].cap == cap &&
      d.executions[run].intent !in d.results
  {
    if run < |d.executions| {
      SumAtLeast(d.executions, run, Open());
    }
  }

  // ------------------------------------------------------------ the registration

  ghost predicate Rebinds(ops: seq<Op>, k: nat) {
    Commits(ops, k) && (ops[k].Rebind? || ops[k].RebindAt? || ops[k].ConfirmControl?)
  }

  ghost predicate Revokes(ops: seq<Op>, k: nat) { Commits(ops, k) && ops[k].Revoke? }

  ghost predicate LatestRebind(ops: seq<Op>, k: nat) {
    Rebinds(ops, k) && forall j :: k < j < |ops| ==> !Rebinds(ops, j)
  }

  /** Control is confirmed exactly when the latest committed rebind was the owner's confirmation; before any, it is
      not. */
  lemma {:induction false} ConfirmedByLatestRebind(ops: seq<Op>) returns (k: Option<nat>)
    ensures var d := Execute(IMPORTED, ops);
      if k.Some? then LatestRebind(ops, k.value) && (d.controlConfirmed <==> ops[k.value].ConfirmControl?)
      else (forall j: nat :: !Rebinds(ops, j)) && !d.controlConfirmed
    decreases |ops|
  {
    assert ops[..|ops|] == ops;
    if ops == [] {
      k := None;
    } else {
      var n := |ops| - 1;
      Last(ops);
      k := ConfirmedByLatestRebind(ops[..n]);
      forall j: nat | j < n ensures Rebinds(ops, j) == Rebinds(ops[..n], j) {
        Earlier(ops, j);
      }
      if Rebinds(ops, n) {
        k := Some(n);
      }
    }
  }

  /** A revocation stands until the next committed rebind, and nothing else revokes. */
  lemma {:induction false} RevokedUntilRebound(ops: seq<Op>) returns (k: Option<nat>)
    ensures Execute(IMPORTED, ops).revoked <==> k.Some?
    ensures if k.Some? then Revokes(ops, k.value) && forall j :: k.value < j < |ops| ==> !Rebinds(ops, j)
      else forall i: nat :: Revokes(ops, i) ==> exists j :: i < j < |ops| && Rebinds(ops, j)
    decreases |ops|
  {
    assert ops[..|ops|] == ops;
    if ops == [] {
      k := None;
    } else {
      var n := |ops| - 1;
      Last(ops);
      k := RevokedUntilRebound(ops[..n]);
      forall j: nat | j < n
        ensures Rebinds(ops, j) == Rebinds(ops[..n], j) && Revokes(ops, j) == Revokes(ops[..n], j)
      {
        Earlier(ops, j);
      }
      if Rebinds(ops, n) {
        k := None;
      } else if Revokes(ops, n) {
        k := Some(n);
      } else if k.None? {
        forall i: nat | Revokes(ops, i) ensures exists j :: i < j < |ops| && Rebinds(ops, j) {
          var j :| i < j < n && Rebinds(ops[..n], j);
          assert Rebinds(ops, j);
        }
      }
    }
  }

  // ------------------------------------------------------------ the entries

  /** Transaction `k` recorded entry `i`: the first preparation of its command, with exactly these terms. */
  ghost predicate Records(ops: seq<Op>, k: nat, i: nat, e: Execution) {
    k < |ops| && ops[k] == Prepare(e.cap, e.intent, e.control, e.amount) && |At(ops, k).executions| == i &&
    forall j :: 0 <= j < i ==> At(ops, k).executions[j].cap != e.cap || At(ops, k).executions[j].intent != e.intent
  }

  lemma NewEntry(d: Directory, op: Op)
    requires Inv(d) && |Step(d, op).executions| != |d.executions|
    ensures op.Prepare? && Step(d, op).executions ==
      d.executions + [Execution(op.cap, op.intent, op.control, op.amount, false, false, false)]
    ensures forall j :: 0 <= j < |d.executions| ==>
      d.executions[j].cap != op.cap || d.executions[j].intent != op.intent
  {
    forall j | 0 <= j < |d.executions|
      ensures d.executions[j].cap != op.cap || d.executions[j].intent != op.intent
    {
      assert Filed(d.executions, d.index, j);
    }
  }

  lemma KeptEntry(d: Directory, op: Op, i: nat)
    requires i < |d.executions|
    ensures i < |Step(d, op).executions|
    ensures var e, e' := d.executions[i], Step(d, op).executions[i];
      e' == e.(started := e'.started, over := e'.over, settled := e'.settled)
  {
  }

  /** Every entry was recorded by the first preparation of its command, and still says what that said. */
  lemma {:induction false} EntryRecorded(ops: seq<Op>, i: nat) returns (k: nat)
    requires i < |Execute(IMPORTED, ops).executions|
    ensures Records(ops, k, i, Execute(IMPORTED, ops).executions[i])
    decreases |ops|
  {
    assert ops[..|ops|] == ops;
    if ops == [] {
      assert false;
    } else {
      var n := |ops| - 1;
      Last(ops);
      if i < |At(ops, n).executions| {
        k := EntryRecorded(ops[..n], i);
        KeptEntry(At(ops, n), ops[n], i);
        Earlier(ops, k);
      } else {
        ExecuteKeeps(IMPORTED, ops[..n]);
        NewEntry(At(ops, n), ops[n]);
        k := n;
      }
    }
  }

  /** The transaction takes the result name of this intent: a saved record, or the finish of a Run for it. */
  predicate Taking(d: Directory, op: Op, intent: nat) {
    op == SaveRecord(intent) || (op.Finish? && op.run < |d.executions| && d.executions[op.run].intent == intent)
  }

  ghost predicate TakesName(ops: seq<Op>, k: nat, intent: nat) {
    Commits(ops, k) && Taking(At(ops, k), ops[k], intent)
  }

  lemma NameStep(d: Directory, op: Op, intent: nat)
    ensures intent in Step(d, op).results <==>
      intent in d.results || (Apply(d, op).Done? && Taking(d, op, intent))
  {
  }

  /** A result name is taken exactly when a committed transaction took it. */
  lemma {:induction false} NameTakenByCommit(ops: seq<Op>, intent: nat)
    ensures intent in Execute(IMPORTED, ops).results <==> exists k: nat :: TakesName(ops, k, intent)
    decreases |ops|
  {
    assert ops[..|ops|] == ops;
    if ops != [] {
      var n := |ops| - 1;
      Last(ops);
      NameStep(At(ops, n), ops[n], intent);
      NameTakenByCommit(ops[..n], intent);
      forall k: nat | k < n ensures TakesName(ops, k, intent) == TakesName(ops[..n], k, intent) {
        Earlier(ops, k);
      }
      assert TakesName(ops, n, intent) <==> Apply(At(ops, n), ops[n]).Done? && Taking(At(ops, n), ops[n], intent);
    }
  }

  datatype Mark = Started | Settled | Over

  ghost predicate Marked(d: Directory, i: nat, mark: Mark) {
    i < |d.executions| && match mark
      case Started => d.executions[i].started
      case Settled => d.executions[i].settled
      case Over => d.executions[i].over
  }

  /** A Run starts by its beginning; it is settled by a stop before that or by a finish with known effects, and a finish
      with unknown effects ends it unsettled. */
  ghost predicate Marking(d: Directory, op: Op, i: nat, mark: Mark) {
    var cancelled := op == Stop(i) && i < |d.executions| && !d.executions[i].started;
    match mark
    case Started => op == Begin(i)
    case Settled => cancelled || (op.Finish? && op.run == i && !op.unknownEffects)
    case Over => cancelled || (op.Finish? && op.run == i)
  }

  ghost predicate Marks(ops: seq<Op>, k: nat, i: nat, mark: Mark) {
    Commits(ops, k) && Marking(At(ops, k), ops[k], i, mark)
  }

  lemma MarkStep(d: Directory, op: Op, i: nat, mark: Mark)
    ensures Marked(Step(d, op), i, mark) <==> Marked(d, i, mark) || (Apply(d, op).Done? && Marking(d, op, i, mark))
  {
  }

  /** In every run an entry is started, settled or over exactly when a committed transaction made it so. */
  lemma {:induction false} MarkedByCommit(ops: seq<Op>, i: nat, mark: Mark)
    ensures Marked(Execute(IMPORTED, ops), i, mark) <==> exists k: nat :: Marks(ops, k, i, mark)
    decreases |ops|
  {
    assert ops[..|ops|] == ops;
    if ops != [] {
      var n := |ops| - 1;
      Last(ops);
      MarkStep(At(ops, n), ops[n], i, mark);
      assert Marks(ops, n, i, mark) <==> Apply(At(ops, n), ops[n]).Done? && Marking(At(ops, n), ops[n], i, mark);
      MarkedByCommit(ops[..n], i, mark);
      forall k: nat | k < n ensures Marks(ops, k, i, mark) == Marks(ops[..n], k, i, mark) {
        Earlier(ops, k);
      }
    }
  }
}
