/**
 * A result is saved as a first revision under a name made of the command's intent alone, so an
 * organization holds one result per intent. What that means for two Runs with the same intent, and
 * why it never matters when intents name their capability.
 */
module OkrResults {
  import opened Common
  import opened OkrProtocol
  import opened OkrTheorems

  lemma {:induction false} ExecuteSplit(w: World, calls: seq<Call>, more: seq<Call>)
    ensures Execute(w, calls + more) == Execute(Execute(w, calls), more)
    decreases |calls|
  {
    if calls == [] {
      assert calls + more == more;
    } else {
      assert (calls + more)[1..] == calls[1..] + more;
      ExecuteSplit(Step(w, calls[0]), calls[1..], more);
    }
  }

  /** A running Run whose intent already has a saved result. */
  ghost predicate Blocked(w: World, r: nat) {
    r < |w.runs| && w.runs[r].state.Running? && w.runs[r].command.intent in w.results
  }

  lemma BlockedRunEntry(w: World, call: Call, r: nat)
    requires Inv(w) && Blocked(w, r) && IsRunEntry(call.op) && Apply(w, call).Done?
    ensures r < |Apply(w, call).state.runs| && Apply(w, call).state.runs[r].state.Running?
  {
    if call.op.run == r && call.op.Finish? {
      FinishExactly(w, r, call.op.final, call.op.cursor, call.op.spent);
    }
  }

  lemma BlockedStep(w: World, call: Call, r: nat)
    requires Inv(w) && Blocked(w, r)
    ensures Blocked(Step(w, call), r)
  {
    StepLater(w, call);
    if Apply(w, call).Done? {
      if IsOkrEntry(call.op) {
        OkrEntryFrame(w, call);
      } else if call.op.Prepare? {
        PrepareFrame(w, call.op.okr, call.op.cap, call.op.agreement, call.op.kr, call.op.scheduled, call.op.command,
          call.now);
      } else if IsRunEntry(call.op) {
        BlockedRunEntry(w, call, r);
      }
    }
  }

  /** A blocked Run can never be finished in any way, and keeps its reservation whatever happens next. */
  lemma {:induction false} BlockedForever(w: World, calls: seq<Call>, r: nat)
    requires Inv(w) && Blocked(w, r)
    ensures var w' := Execute(w, calls);
      Blocked(w', r) && w.runs[r].okr < |w'.okrs| && w'.okrs[w.runs[r].okr].reserved >= w.runs[r].command.amount &&
      forall final, cursor, spent :: DoFinish(w', r, final, cursor, spent).Abort?
    decreases |calls|
  {
    if calls == [] {
      SettleEnabled(w, r);
    } else {
      BlockedStep(w, calls[0], r);
      StepKeeps(w, calls[0]);
      StepLater(w, calls[0]);
      BlockedForever(Step(w, calls[0]), calls[1..], r);
    }
  }

  /** Of two Runs in progress with the same intent, the first to finish, in whatever state, blocks the other for
      good. */
  lemma SecondResultBlocked(w: World, r: nat, q: nat, final: RunState, cursor: nat, spent: nat, calls: seq<Call>)
    requires Inv(w) && r < |w.runs| && q < |w.runs| && q != r && w.runs[q].state.Running?
    requires w.runs[r].command.intent == w.runs[q].command.intent && DoFinish(w, r, final, cursor, spent).Done?
    ensures var w' := Execute(DoFinish(w, r, final, cursor, spent).state, calls);
      Blocked(w', q) && forall final, cursor, spent :: DoFinish(w', q, final, cursor, spent).Abort?
  {
    FinishKeeps(w, r, final, cursor, spent);
    var w1 := DoFinish(w, r, final, cursor, spent).state;
    assert Blocked(w1, q) by {
      assert RunInv(w, r);
      assert w1.runs[q] == w.runs[q];
    }
    BlockedForever(w1, calls, q);
  }

  /** The signed intent names its capability: `owner` reads it back, and no other record takes the name of an intent in
      `prepared`, which covers every intent the run prepares. */
  ghost predicate Named(call: Call, owner: nat -> nat, prepared: set<nat>) {
    (call.op.SaveRecord? ==> call.op.intent !in prepared) &&
    (call.op.Prepare? ==> owner(call.op.command.intent) == call.op.cap && call.op.command.intent in prepared)
  }

  predicate Over(s: RunState) { Final(s) || s.NeedsConfirmation? }

  /** The result saved under `x` is that of a Run that is over. */
  ghost predicate ResultOf(runs: seq<Run>, x: nat) {
    exists r :: 0 <= r < |runs| && runs[r].command.intent == x && Over(runs[r].state)
  }

  /** Every saved result belongs to a Run that is over, and every Run sits on the capability its intent names. */
  ghost predicate Owned(w: World, owner: nat -> nat, prepared: set<nat>) {
    (forall r {:trigger w.runs[r]} :: 0 <= r < |w.runs| ==> OwnedRun(w.runs[r], owner, prepared)) &&
    (forall x :: x in w.results && x in prepared ==> ResultOf(w.runs, x))
  }

  ghost predicate OwnedRun(run: Run, owner: nat -> nat, prepared: set<nat>) {
    owner(run.command.intent) == run.cap && run.command.intent in prepared
  }

  /** Only a preparation adds a Run. */
  lemma OwnedRuns(w: World, call: Call, owner: nat -> nat, prepared: set<nat>, r: nat)
    requires Inv(w) && Owned(w, owner, prepared) && Named(call, owner, prepared) && r < |Step(w, call).runs|
    ensures OwnedRun(Step(w, call).runs[r], owner, prepared)
  {
    StepLater(w, call);
    if r >= |w.runs| && call.op.Prepare? {
      PrepareFrame(w, call.op.okr, call.op.cap, call.op.agreement, call.op.kr, call.op.scheduled, call.op.command,
        call.now);
    } else if IsOkrEntry(call.op) && Apply(w, call).Done? {
      OkrEntryFrame(w, call);
    }
  }

  /** Only finishing a Run, or another writer, saves a result. */
  lemma NewResult(w: World, call: Call, x: nat)
    requires Apply(w, call).Done? && !call.op.SaveRecord? && x in Apply(w, call).state.results && x !in w.results
    ensures ResultOf(Apply(w, call).state.runs, x)
  {
    if call.op.Prepare? {
      PrepareFrame(w, call.op.okr, call.op.cap, call.op.agreement, call.op.kr, call.op.scheduled, call.op.command,
        call.now);
    } else if call.op.Finish? {
      assert Apply(w, call).state.runs[call.op.run].command.intent == x;
    }
  }

  lemma OldResult(w: World, w': World, x: nat)
    requires Later(w, w') && ResultOf(w.runs, x)
    ensures ResultOf(w'.runs, x)
  {
    var r :| 0 <= r < |w.runs| && w.runs[r].command.intent == x && Over(w.runs[r].state);
    assert RunLater(w.runs[r], w'.runs[r]);
  }

  lemma OwnedStep(w: World, call: Call, owner: nat -> nat, prepared: set<nat>)
    requires Inv(w) && Owned(w, owner, prepared) && Named(call, owner, prepared)
    ensures Owned(Step(w, call), owner, prepared)
  {
    var w' := Step(w, call);
    StepLater(w, call);
    forall r | 0 <= r < |w'.runs| ensures OwnedRun(w'.runs[r], owner, prepared) {
      OwnedRuns(w, call, owner, prepared, r);
    }
    forall x | x in w'.results && x in prepared ensures ResultOf(w'.runs, x) {
      if x in w.results { OldResult(w, w', x); } else { NewResult(w, call, x); }
    }
  }

  lemma OneRunPerIntent(w: World, r: nat, q: nat)
    requires Inv(w) && r < |w.runs| && q < |w.runs|
    requires w.runs[r].cap == w.runs[q].cap && w.runs[r].command.intent == w.runs[q].command.intent
    ensures r == q
  {
    assert RunInv(w, r) && RunInv(w, q);
  }

  /** When intents name their capability the result of a Run in progress never exists yet, in any run: finishing is
      blocked by nothing else. */
  lemma {:induction false} NamedIntentsNeverBlock(
    w: World, calls: seq<Call>, owner: nat -> nat, prepared: set<nat>, r: nat)
    requires Inv(w) && Owned(w, owner, prepared) && forall i :: 0 <= i < |calls| ==> Named(calls[i], owner, prepared)
    ensures !Blocked(Execute(w, calls), r)
    decreases |calls|
  {
    if calls == [] {
      if r < |w.runs| && w.runs[r].command.intent in w.results {
        var q :| 0 <= q < |w.runs| && w.runs[q].command.intent == w.runs[r].command.intent && Over(w.runs[q].state);
        OneRunPerIntent(w, r, q);
      }
    } else {
      StepKeeps(w, calls[0]);
      OwnedStep(w, calls[0], owner, prepared);
      NamedIntentsNeverBlock(Step(w, calls[0]), calls[1..], owner, prepared, r);
    }
  }

  lemma Snoc(w: World, calls: seq<Call>, call: Call)
    ensures Execute(w, calls + [call]) == Step(Execute(w, calls), call)
  {
    ExecuteSplit(w, calls, [call]);
    assert [call][1..] == [];
  }

  /** An OKR with one KR, active under its first agreement. */
  function OneKr(reserved: nat): Okr {
    Okr(Active, 2, 1, 1000, [Metric(0, 1, 1, 1, None, false)], 0, "CALLS", 10, 1000, 10, 0, reserved,
      Some(Policy(1, 5)))
  }

  const UNUSED := Cap(0, 1, "CALLS", 5, 0, 5, 0, 0, 0, 1000, false, 1, map[], map[], map[], map[])
  const TWICE := Command(7, 1, 1, 1, "CALLS", 2, 10, 20)

  lemma TwoIssued() returns (calls: seq<Call>)
    ensures Execute(EMPTY, calls) == World([OneKr(0)], [UNUSED, UNUSED], [], 1, {})
  {
    var c1 := Call(CreateDraft(1000, [Metric(0, 1, 1, 1, None, false)]), true, 10);
    var c2 := Call(Activate(0, 1, "CALLS", 10, 1000, Some(5)), true, 10);
    var c3 := Call(IssueCapability(0, 2, 5), true, 10);
    var w1 := Step(EMPTY, c1);
    var w2 := Step(w1, c2);
    assert w2 == World([OneKr(0)], [], [], 1, {});
    var w3 := Step(w2, c3);
    assert w3 == World([OneKr(0)], [UNUSED], [], 1, {});
    assert Step(w3, c3) == World([OneKr(0)], [UNUSED, UNUSED], [], 1, {});
    Snoc(EMPTY, [], c1);
    Snoc(EMPTY, [c1], c2);
    Snoc(EMPTY, [c1, c2], c3);
    Snoc(EMPTY, [c1, c2, c3], c3);
    assert [] + [c1] == [c1] && [c1] + [c2] == [c1, c2] && [c1, c2] + [c3] == [c1, c2, c3];
    calls := [c1, c2, c3] + [c3];
  }

  /** The same command prepared on two capabilities. */
  lemma TwoPrepared(w: World, cap: nat)
    requires w.okrs == [OneKr(2 * |w.runs|)] && |w.caps| == 2 && cap < 2 && w.caps[cap] == UNUSED && |w.runs| <= 1
    ensures Step(w, Call(Prepare(0, cap, 1, 0, false, TWICE), true, 10)) == Reserve(w, 0, cap, 1, 0, TWICE, 10)
  {
  }

  lemma TwoBegun(w: World, r: nat)
    requires w.okrs == [OneKr(4)] && r < |w.runs| && w.runs[r].cap < |w.caps|
    requires w.runs[r] == Run(0, w.runs[r].cap, 1, 1, 0, TWICE, 10, Queued, false, 1, Claim(2, 0, false),
      Claim(2, 0, false))
    requires w.caps[w.runs[r].cap] == Claimed(UNUSED, TWICE, r)
    ensures Step(w, Call(Begin(r), true, 10)) == w.(runs := w.runs[r := w.runs[r].(state := Running, cursor := 2)])
  {
  }

  lemma TwoStarted() returns (calls: seq<Call>)
    ensures var w := Execute(EMPTY, calls);
      |w.runs| == 2 && w.runs[0].okr == w.runs[1].okr == 0 && w.runs[0].cap != w.runs[1].cap &&
      w.runs[0].command == w.runs[1].command == TWICE && w.runs[0].state.Running? && w.runs[1].state.Running? &&
      w.runs[0].cursor == 2 && w.results == {}
  {
    var base := TwoIssued();
    var p0, p1 := Call(Prepare(0, 0, 1, 0, false, TWICE), true, 10), Call(Prepare(0, 1, 1, 0, false, TWICE), true, 10);
    var b0, b1 := Call(Begin(0), true, 10), Call(Begin(1), true, 10);
    var w0 := Execute(EMPTY, base);
    TwoPrepared(w0, 0);
    var w1 := Reserve(w0, 0, 0, 1, 0, TWICE, 10);
    TwoPrepared(w1, 1);
    var w2 := Reserve(w1, 0, 1, 1, 0, TWICE, 10);
    TwoBegun(w2, 0);
    TwoBegun(Step(w2, b0), 1);
    Snoc(EMPTY, base, p0);
    Snoc(EMPTY, base + [p0], p1);
    Snoc(EMPTY, base + [p0] + [p1], b0);
    Snoc(EMPTY, base + [p0] + [p1] + [b0], b1);
    calls := base + [p0] + [p1] + [b0] + [b1];
  }

  /** The input: one intent on two capabilities of one OKR, both Runs started, one finished. The other is blocked and
      its allowance held, whatever comes after. */
  lemma TwoCapabilitiesOneIntent(more: seq<Call>) returns (calls: seq<Call>)
    ensures var w := Execute(EMPTY, calls);
      |w.runs| == 2 && w.runs[0].state.Succeeded? && Blocked(w, 1) &&
      var w' := Execute(w, more);
      Blocked(w', 1) && |w'.okrs| > 0 && w'.okrs[0].reserved >= 2 &&
        forall final, cursor, spent :: DoFinish(w', 1, final, cursor, spent).Abort?
  {
    var started := TwoStarted();
    var w := Execute(EMPTY, started);
    var finish := Call(Finish(0, Succeeded, 2, 1), true, 10);
    ExecuteKeeps(EMPTY, started);
    FinishExactly(w, 0, Succeeded, 2, 1);
    SecondResultBlocked(w, 0, 1, Succeeded, 2, 1, []);
    Snoc(EMPTY, started, finish);
    StepKeeps(w, finish);
    BlockedForever(Step(w, finish), more, 1);
    calls := started + [finish];
  }

  // ------------------------------------------------------------ which names are taken

  /** The call takes the result name of this intent: a saved record, or the finish of a Run for it. */
  predicate Taking(w: World, call: Call, intent: nat) {
    call.op == SaveRecord(intent) ||
    (call.op.Finish? && call.op.run < |w.runs| && w.runs[call.op.run].command.intent == intent)
  }

  lemma NameStep(w: World, call: Call, intent: nat)
    ensures intent in Step(w, call).results <==>
      intent in w.results || (Apply(w, call).Done? && Taking(w, call, intent))
  {
    if Apply(w, call).Done? {
      if IsOkrEntry(call.op) {
        OkrEntryFrame(w, call);
      } else if call.op.Prepare? {
        PrepareFrame(w, call.op.okr, call.op.cap, call.op.agreement, call.op.kr, call.op.scheduled, call.op.command,
          call.now);
      }
    }
  }

  /** Call `k` of a run, judged after the `k` calls before it, commits and takes the name. */
  ghost predicate TakesName(w: World, calls: seq<Call>, k: nat, intent: nat) {
    k < |calls| && Apply(Execute(w, calls[..k]), calls[k]).Done? && Taking(Execute(w, calls[..k]), calls[k], intent)
  }

  lemma TakesLater(w: World, calls: seq<Call>, k: nat, intent: nat)
    requires calls != []
    ensures TakesName(w, calls, k + 1, intent) <==> TakesName(Step(w, calls[0]), calls[1..], k, intent)
  {
    if k + 1 < |calls| {
      assert calls[..k + 1][1..] == calls[1..][..k];
    }
  }

  /** A result name is taken exactly when it was at the start or a committed call took it. */
  lemma {:induction false} NameTakenByCommit(w: World, calls: seq<Call>, intent: nat)
    ensures intent in Execute(w, calls).results <==>
      intent in w.results || exists k: nat :: TakesName(w, calls, k, intent)
    decreases |calls|
  {
    if calls != [] {
      NameStep(w, calls[0], intent);
      NameTakenByCommit(Step(w, calls[0]), calls[1..], intent);
      assert calls[..0] == [];
      assert TakesName(w, calls, 0, intent) <==> Apply(w, calls[0]).Done? && Taking(w, calls[0], intent);
      if k: nat :| TakesName(Step(w, calls[0]), calls[1..], k, intent) {
        TakesLater(w, calls, k, intent);
        assert TakesName(w, calls, k + 1, intent);
      }
      if k: nat :| TakesName(w, calls, k, intent) && k > 0 {
        TakesLater(w, calls, k - 1, intent);
        assert TakesName(Step(w, calls[0]), calls[1..], k - 1, intent);
      }
    }
  }
}
