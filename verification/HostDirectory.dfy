/**
 * The execution directory of one managed Agent and the version check of its registration.
 * `Step` is the meaning of one transaction on values; the class is the object the contract mutates.
 */
module HostDirectory {
  import opened Common

  /** A tracked command: `started` once its Run runs, `over` once it has left the queued and running states, `settled`
      unless its effects are unknown. */
  datatype Execution = Execution(
    cap: nat, intent: nat, control: bool, amount: nat, started: bool, over: bool, settled: bool)
  /** `results` are the intents under whose name the organization already holds a result record. */
  datatype Directory = Directory(
    version: nat, revoked: bool, controlConfirmed: bool,
    executions: seq<Execution>, index: map<(nat, nat), nat>, results: set<nat>, unsettledControl: nat, revision: nat)

  datatype Op =
    | Prepare(cap: nat, intent: nat, control: bool, amount: nat)
    | Begin(run: nat)
    | Stop(run: nat)
    | Finish(run: nat, cap: nat, unknownEffects: bool)
    | SaveRecord(intent: nat)
    | Rebind(control: bool)
    | RebindAt(expected: nat, control: bool)
    | ConfirmControl(expected: nat)
    | Revoke

  const IMPORTED := Directory(1, false, false, [], map[], {}, 0, 1)

  /** Each capability indexes its Runs by the intent of their command. */
  predicate Known(d: Directory, cap: nat, intent: nat) { (cap, intent) in d.index }

  predicate IsRebind(op: Op) { op.Rebind? || op.RebindAt? || op.ConfirmControl? }

  function Rebound(d: Directory, control: bool): Directory {
    d.(version := d.version + 1, revoked := false, controlConfirmed := control)
  }

  function Move(d: Directory, run: nat, e: Execution): Directory
    requires run < |d.executions|
  {
    d.(executions := d.executions[run := e])
  }

  /** Settle an entry and take a control one off the count. */
  function Settle(d: Directory, run: nat): Commit<Directory>
    requires run < |d.executions|
  {
    var e := d.executions[run];
    if e.settled || (e.control && d.unsettledControl == 0) then Abort else
    Done(Move(d, run, e.(over := true, settled := true)).(
      revision := d.revision + 1, unsettledControl := if e.control then d.unsettledControl - 1 else d.unsettledControl))
  }

  function Apply(d: Directory, op: Op): Commit<Directory> {
    match op
    case Prepare(cap, intent, control, amount) =>
      // An identical preparation returns its original Run and records nothing.
      if Known(d, cap, intent) then Done(d) else
      Done(d.(executions := d.executions + [Execution(cap, intent, control, amount, false, false, false)],
              index := d.index[(cap, intent) := |d.executions|], revision := d.revision + 1,
              unsettledControl := if control then d.unsettledControl + 1 else d.unsettledControl))
    case Begin(run) =>
      if run >= |d.executions| || d.executions[run].started || d.executions[run].over then Abort
      else Done(Move(d, run, d.executions[run].(started := true)))
    case Stop(run) =>
      // Only a queued Run is settled by its stop; a running one is merely asked.
      if run >= |d.executions| || d.executions[run].over then Abort
      else if d.executions[run].started then Done(d) else Settle(d, run)
    case Finish(run, cap, unknownEffects) =>
      if run >= |d.executions| || !d.executions[run].started || d.executions[run].over then Abort else
      var e := d.executions[run];
      if e.cap != cap || e.intent in d.results then Abort else
      var d' := d.(results := d.results + {e.intent});
      if unknownEffects then Done(Move(d', run, e.(over := true))) else Settle(d', run)
    // Any other writer of the organization may take the name of a result.
    case SaveRecord(intent) => Done(d.(results := d.results + {intent}))
    case Rebind(control) =>
      if d.unsettledControl != 0 || control then Abort else Done(Rebound(d, false))
    case RebindAt(expected, control) =>
      if d.version != expected || d.unsettledControl != 0 || control then Abort else Done(Rebound(d, false))
    case ConfirmControl(expected) =>
      if d.version != expected || d.unsettledControl != 0 then Abort else Done(Rebound(d, true))
    case Revoke => if d.revoked then Abort else Done(d.(revoked := true, version := d.version + 1))
  }

  function Step(d: Directory, op: Op): Directory {
    match Apply(d, op)
    case Done(d') => d'
    case Abort => d
  }

  function Execute(d: Directory, ops: seq<Op>): Directory
    decreases |ops|
  {
    if ops == [] then d else Execute(Step(d, ops[0]), ops[1..])
  }

  // ------------------------------------------------------------ the count

  function Open(): Execution -> nat { (e: Execution) => if e.control && !e.settled then 1 else 0 }

  ghost predicate Inv(d: Directory) {
    d.unsettledControl == Sum(d.executions, Open()) &&
    (forall i :: 0 <= i < |d.executions| ==> (d.executions[i].settled ==> d.executions[i].over)) &&
    Indexed(d.executions, d.index)
  }

  ghost predicate Filed(s: seq<Execution>, index: map<(nat, nat), nat>, i: nat) {
    i < |s| && (s[i].cap, s[i].intent) in index && index[(s[i].cap, s[i].intent)] == i
  }

  ghost predicate Points(s: seq<Execution>, index: map<(nat, nat), nat>, k: (nat, nat)) {
    k in index && index[k] < |s| && (s[index[k]].cap, s[index[k]].intent) == k
  }

  /** The index finds every entry, so no two entries are for the same command. */
  ghost predicate Indexed(s: seq<Execution>, index: map<(nat, nat), nat>) {
    (forall i: nat {:trigger Filed(s, index, i)} :: i < |s| ==> Filed(s, index, i)) &&
    (forall k {:trigger Points(s, index, k)} :: k in index ==> Points(s, index, k))
  }

  lemma IndexOneMore(s: seq<Execution>, index: map<(nat, nat), nat>, e: Execution)
    requires Indexed(s, index) && (e.cap, e.intent) !in index
    ensures Indexed(s + [e], index[(e.cap, e.intent) := |s|])
  {
    var s', index' := s + [e], index[(e.cap, e.intent) := |s|];
    forall i: nat | i < |s'| ensures Filed(s', index', i) {
      if i < |s| { assert Filed(s, index, i); }
    }
    forall k | k in index' ensures Points(s', index', k) {
      if k in index { assert Points(s, index, k); }
    }
  }

  lemma PrepareKeeps(d: Directory, op: Op)
    requires Inv(d) && op.Prepare?
    ensures Inv(Step(d, op))
  {
    if !Known(d, op.cap, op.intent) {
      var e := Execution(op.cap, op.intent, op.control, op.amount, false, false, false);
      SumAppend(d.executions, e, Open());
      IndexOneMore(d.executions, d.index, e);
    }
  }

  predicate MovesRun(op: Op) { op.Begin? || op.Stop? || op.Finish? }

  /** An entry that keeps its command moves the count by its own share. */
  lemma MoveKeeps(d: Directory, run: nat, d': Directory)
    requires Inv(d) && run < |d.executions| == |d'.executions| &&
      d'.executions == d.executions[run := d'.executions[run]]
    requires d'.index == d.index
    requires d'.executions[run].cap == d.executions[run].cap && d'.executions[run].intent == d.executions[run].intent
    requires d'.executions[run].settled ==> d'.executions[run].over
    requires d'.unsettledControl + Open()(d.executions[run]) == d.unsettledControl + Open()(d'.executions[run])
    ensures Inv(d')
  {
    var s := d'.executions;
    SumUpdate(d.executions, run, s[run], Open());
    forall i: nat | i < |s| ensures Filed(s, d.index, i) {
      assert Filed(d.executions, d.index, i);
    }
    forall k | k in d.index ensures Points(s, d.index, k) {
      assert Points(d.executions, d.index, k);
    }
  }

  lemma RunKeeps(d: Directory, op: Op)
    requires Inv(d) && MovesRun(op) && Apply(d, op).Done?
    ensures Inv(Step(d, op))
  {
    if Step(d, op) != d {
      MoveKeeps(d, op.run, Step(d, op));
    }
  }

  lemma StepKeeps(d: Directory, op: Op)
    requires Inv(d)
    ensures Inv(Step(d, op))
  {
    if op.Prepare? {
      PrepareKeeps(d, op);
    } else if MovesRun(op) && Apply(d, op).Done? {
      RunKeeps(d, op);
    }
  }

  lemma {:induction false} ExecuteKeeps(d: Directory, ops: seq<Op>)
    requires Inv(d)
    ensures Inv(Execute(d, ops))
    decreases |ops|
  {
    if ops != [] {
      StepKeeps(d, ops[0]);
      ExecuteKeeps(Step(d, ops[0]), ops[1..]);
    }
  }

  /** In every run the counter is exactly the number of unsettled control executions. */
  lemma CounterExact(ops: seq<Op>)
    ensures var d := Execute(IMPORTED, ops); d.unsettledControl == Sum(d.executions, Open())
  {
    ExecuteKeeps(IMPORTED, ops);
  }

  lemma {:induction false} IndexGrows(d: Directory, ops: seq<Op>)
    ensures d.index.Keys <= Execute(d, ops).index.Keys
    decreases |ops|
  {
    if ops != [] {
      IndexGrows(Step(d, ops[0]), ops[1..]);
    }
  }

  /** Once prepared, a command adds nothing for ever: after any run, preparing it again changes neither entries, nor
      revision, nor counter. */
  lemma DuplicatePrepare(d: Directory, ops: seq<Op>, cap: nat, intent: nat, control: bool, amount: nat)
    requires Known(d, cap, intent)
    ensures Step(Execute(d, ops), Prepare(cap, intent, control, amount)) == Execute(d, ops)
  {
    IndexGrows(d, ops);
  }

  /** No rebind, of any kind, commits while any control execution is unsettled. */
  lemma RebindNeedsIdle(d: Directory, op: Op, i: nat)
    requires Inv(d) && i < |d.executions| && d.executions[i].control && !d.executions[i].settled
    requires IsRebind(op)
    ensures Apply(d, op).Abort?
  {
    SumAtLeast(d.executions, i, Open());
  }

  lemma StepVersion(d: Directory, op: Op)
    ensures d.version <= Step(d, op).version <= d.version + 1
    ensures |d.executions| <= |Step(d, op).executions|
    ensures forall i :: 0 <= i < |d.executions| && d.executions[i].over ==>
      Step(d, op).executions[i] == d.executions[i]
  {
  }

  predicate Carries(op: Op, v: nat) { (op.RebindAt? || op.ConfirmControl?) && op.expected == v }

  /** How many rebinds carrying version `v` commit along a run. */
  function Winners(d: Directory, ops: seq<Op>, v: nat): nat
    decreases |ops|
  {
    if ops == [] then 0
    else (if Carries(ops[0], v) && Apply(d, ops[0]).Done? then 1 else 0) + Winners(Step(d, ops[0]), ops[1..], v)
  }

  lemma {:induction false} NoWinnerLater(d: Directory, ops: seq<Op>, v: nat)
    requires v < d.version
    ensures Winners(d, ops, v) == 0
    decreases |ops|
  {
    if ops != [] {
      StepVersion(d, ops[0]);
      NoWinnerLater(Step(d, ops[0]), ops[1..], v);
    }
  }

  /** Of all rebinds carrying the same expected version at most one commits, in every run. */
  lemma {:induction false} AtMostOneWinner(d: Directory, ops: seq<Op>, v: nat)
    ensures Winners(d, ops, v) <= 1
    decreases |ops|
  {
    if ops != [] {
      if Carries(ops[0], v) && Apply(d, ops[0]).Done? {
        NoWinnerLater(Step(d, ops[0]), ops[1..], v);
      } else {
        AtMostOneWinner(Step(d, ops[0]), ops[1..], v);
      }
    }
  }

  /** How many rebinds and revocations commit along a run. */
  function Changes(d: Directory, ops: seq<Op>): nat
    decreases |ops|
  {
    if ops == [] then 0 else
    var change := (IsRebind(ops[0]) || ops[0].Revoke?) && Apply(d, ops[0]).Done?;
    (if change then 1 else 0) + Changes(Step(d, ops[0]), ops[1..])
  }

  /** The version counts exactly the committed rebinds and revocations; losers, preparations and settlements leave it
      alone. */
  lemma {:induction false} VersionCounts(d: Directory, ops: seq<Op>)
    ensures Execute(d, ops).version == d.version + Changes(d, ops)
    decreases |ops|
  {
    if ops != [] {
      VersionCounts(Step(d, ops[0]), ops[1..]);
    }
  }

  /** A control execution that nothing can settle any more: its effects are unknown, or it runs and the name of its
      result is taken. */
  ghost predicate Unsettleable(d: Directory, i: nat) {
    i < |d.executions| && d.executions[i].control && !d.executions[i].settled &&
    (d.executions[i].over || (d.executions[i].started && d.executions[i].intent in d.results))
  }

  lemma UnsettleableStep(d: Directory, op: Op, i: nat)
    requires Unsettleable(d, i)
    ensures Unsettleable(Step(d, op), i)
  {
  }

  /** Such an execution blocks every later rebind for good. */
  lemma {:induction false} UnsettleableBlocksRebind(d: Directory, ops: seq<Op>, i: nat)
    requires Inv(d) && Unsettleable(d, i)
    ensures Execute(d, ops).unsettledControl > 0
    ensures forall op: Op :: IsRebind(op) ==> Apply(Execute(d, ops), op).Abort?
    decreases |ops|
  {
    SumAtLeast(d.executions, i, Open());
    if ops != [] {
      UnsettleableStep(d, ops[0], i);
      StepKeeps(d, ops[0]);
      UnsettleableBlocksRebind(Step(d, ops[0]), ops[1..], i);
    }
  }

  /** And nothing else does: any other unsettled control execution can still be settled by one transaction. */
  lemma SettleableOtherwise(d: Directory, i: nat)
    requires Inv(d) && i < |d.executions| && d.executions[i].control && !d.executions[i].settled && !Unsettleable(d, i)
    ensures var e := d.executions[i];
      var op := if e.started then Finish(i, e.cap, false) else Stop(i);
      Apply(d, op).Done? && Step(d, op).executions[i].settled && Step(d, op).unsettledControl == d.unsettledControl - 1
  {
    SumAtLeast(d.executions, i, Open());
  }

  // ------------------------------------------------------------ the mutable object

  class AgentRecord {
    var version: nat
    var revoked: bool
    var controlConfirmed: bool
    var executions: seq<Execution>
    var index: map<(nat, nat), nat>
    var results: set<nat>
    var unsettledControl: nat
    var revision: nat

    ghost function Model(): Directory
      reads this
    {
      Directory(version, revoked, controlConfirmed, executions, index, results, unsettledControl, revision)
    }

    ghost predicate Valid()
      reads this
    {
      Inv(Model())
    }

    constructor ()
      ensures Valid() && Model() == IMPORTED
    {
      version, revoked, controlConfirmed, executions, index := 1, false, false, [], map[];
      results, unsettledControl, revision := {}, 0, 1;
    }

    /** An identical preparation returns the original Run, any other records one entry. */
    method RecordExecution(cap: nat, intent: nat, control: bool, amount: nat) returns (run: nat)
      requires Valid()
      modifies this`executions, this`index, this`unsettledControl, this`revision
      ensures Valid() && Model() == Step(old(Model()), Prepare(cap, intent, control, amount))
      ensures run < |executions| && executions[run].cap == cap && executions[run].intent == intent
    {
      ghost var goal := Step(Model(), Prepare(cap, intent, control, amount));
      PrepareKeeps(Model(), Prepare(cap, intent, control, amount));
      if (cap, intent) in index {
        assert Points(executions, index, (cap, intent));
        run := index[(cap, intent)];
      } else {
        run := |executions|;
        executions := executions + [Execution(cap, intent, control, amount, false, false, false)];
        index := index[(cap, intent) := run];
        if control {
          unsettledControl := unsettledControl + 1;
        }
        revision := revision + 1;
      }
      assert goal == Model();
    }

    /** Report a result: only for a running Run of this capability whose result name is free. */
    method FinishExecution(run: nat, cap: nat, unknownEffects: bool) returns (ok: bool)
      requires Valid()
      modifies this`executions, this`results, this`unsettledControl, this`revision
      ensures Valid() && Model() == Step(old(Model()), Finish(run, cap, unknownEffects))
      ensures ok <==> (
        run < old(|executions|) && old(executions)[run].started && !old(executions)[run].over &&
        old(executions)[run].cap == cap && old(executions)[run].intent !in old(results))
    {
      ghost var goal := Step(Model(), Finish(run, cap, unknownEffects));
      StepKeeps(Model(), Finish(run, cap, unknownEffects));
      if run >= |executions| || !executions[run].started || executions[run].over || executions[run].cap != cap ||
        executions[run].intent in results {
        return false;
      }
      SumAtLeast(executions, run, Open());
      var e := executions[run];
      results := results + {e.intent};
      if unknownEffects {
        executions := executions[run := e.(over := true)];
        assert goal == Model();
        return true;
      }
      executions := executions[run := e.(over := true, settled := true)];
      if e.control {
        unsettledControl := unsettledControl - 1;
      }
      revision := revision + 1;
      assert goal == Model();
      return true;
    }

    method RebindAtVersion(expected: nat, control: bool) returns (ok: bool)
      requires Valid()
      modifies this`version, this`revoked, this`controlConfirmed
      ensures Valid() && Model() == Step(old(Model()), RebindAt(expected, control))
      ensures ok <==> old(version) == expected && old(unsettledControl) == 0 && !control
    {
      StepKeeps(Model(), RebindAt(expected, control));
      ok := version == expected && unsettledControl == 0 && !control;
      if ok {
        version, revoked, controlConfirmed := version + 1, false, false;
      }
    }
  }
}
