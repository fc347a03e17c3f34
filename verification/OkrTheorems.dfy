/** What every run of the OKR contract keeps. */
module OkrTheorems {
  import opened Common
  import opened OkrProtocol

  // ------------------------------------------------- one lemma per kind of change

  /** A change confined to OKR `o` that keeps its totals. */
  lemma OkrChange(w: World, o: nat, k: Okr, w': World)
    requires Inv(w) && o < |w.okrs|
    requires w' == SetOkr(w, o, k).(active := w'.active)
    requires k.reserved == w.okrs[o].reserved && k.spent == w.okrs[o].spent && k.spent + k.reserved <= k.limit
    requires k.asset == w.okrs[o].asset || !HasClaims(w, o)
    requires k.agreement > w.okrs[o].agreement || (k.agreement == w.okrs[o].agreement && k.nextKr >= w.okrs[o].nextKr)
    requires Ordered(k, w.runs, o)
    requires w'.active <= MAX_ACTIVE
    requires w'.active + IsActive()(w.okrs[o]) == w.active + IsActive()(k)
    ensures Inv(w')
  {
    SumUpdate(w.okrs, o, k, IsActive());
    forall p | 0 <= p < |w'.okrs| ensures Balanced(w', p) && Ordered(w'.okrs[p], w'.runs, p) {
      assert Balanced(w, p) && Ordered(w.okrs[p], w.runs, p);
    }
    forall c | 0 <= c < |w'.caps| ensures CapInv(w', c) {
      assert CapInv(w, c);
    }
    forall r | 0 <= r < |w'.runs| ensures RunInv(w', r) {
      assert RunInv(w, r);
    }
  }

  /** Evidence survives as long as succeeded Runs stay as they are. */
  lemma OrderedStable(k: Okr, runs: seq<Run>, runs': seq<Run>, o: nat)
    requires Ordered(k, runs, o) && |runs| <= |runs'|
    requires forall r {:trigger runs'[r]} :: 0 <= r < |runs| && runs[r].state.Succeeded? ==> runs'[r] == runs[r]
    ensures Ordered(k, runs', o)
  {
    forall i | 0 <= i < |k.metrics| && k.metrics[i].sample.Some?
      ensures Evidence(runs', o, i, k.metrics[i].sample.value)
    {
      assert Evidence(runs, o, i, k.metrics[i].sample.value);
    }
  }

  /** A Run that moves on without touching its claims. */
  lemma RunChange(w: World, r: nat, run: Run)
    requires Inv(w) && r < |w.runs| && !w.runs[r].state.Succeeded?
    requires run == w.runs[r].(state := run.state, stop := run.stop, cursor := run.cursor)
    requires RunInv(w.(runs := w.runs[r := run]), r)
    ensures Inv(w.(runs := w.runs[r := run]))
  {
    var w' := w.(runs := w.runs[r := run]);
    forall o | 0 <= o < |w'.okrs| ensures Balanced(w', o) && Ordered(w'.okrs[o], w'.runs, o) {
      assert Balanced(w, o);
      SumUpdate(w.runs, r, run, HeldBy(o));
      SumUpdate(w.runs, r, run, SpentBy(o));
      OrderedStable(w.okrs[o], w.runs, w'.runs, o);
    }
    forall c | 0 <= c < |w'.caps| ensures CapInv(w', c) {
      assert CapInv(w, c);
      SumUpdate(w.runs, r, run, CapHeld(c));
      SumUpdate(w.runs, r, run, CapSpent(c));
    }
    forall q | 0 <= q < |w'.runs| ensures RunInv(w', q) {
      assert RunInv(w, q);
    }
  }

  lemma SettleBalances(w: World, r: nat, spent: nat, state: RunState, stop: bool)
    requires Inv(w) && r < |w.runs| && RunInv(w, r) && !w.runs[r].okrClaim.settled
    requires Settle(w, r, spent, state, stop).Done?
    ensures var w' := Settle(w, r, spent, state, stop).state;
      |w'.okrs| == |w.okrs| && |w'.caps| == |w.caps| &&
      (forall o :: 0 <= o < |w'.okrs| ==> Balanced(w', o)) && (forall c :: 0 <= c < |w'.caps| ==> CapInv(w', c))
  {
    var w' := Settle(w, r, spent, state, stop).state;
    var run' := w'.runs[r];
    forall o | 0 <= o < |w'.okrs| ensures Balanced(w', o) {
      assert Balanced(w, o);
      SumUpdate(w.runs, r, run', HeldBy(o));
      SumUpdate(w.runs, r, run', SpentBy(o));
    }
    forall c | 0 <= c < |w'.caps| ensures CapInv(w', c) {
      assert CapInv(w, c);
      SumUpdate(w.runs, r, run', CapHeld(c));
      SumUpdate(w.runs, r, run', CapSpent(c));
    }
  }

  lemma SettleKeeps(w: World, r: nat, spent: nat, state: RunState, stop: bool)
    requires Inv(w) && r < |w.runs| && RunInv(w, r) && !w.runs[r].okrClaim.settled
    requires Final(state) && (state.Cancelled? ==> stop)
    requires Started(state) ==> Started(w.runs[r].state)
    requires Settle(w, r, spent, state, stop).Done?
    ensures Inv(Settle(w, r, spent, state, stop).state)
  {
    SettleBalances(w, r, spent, state, stop);
    var w' := Settle(w, r, spent, state, stop).state;
    forall o | 0 <= o < |w'.okrs| ensures Ordered(w'.okrs[o], w'.runs, o) {
      assert Ordered(w.okrs[o], w.runs, o);
      OrderedStable(w.okrs[o], w.runs, w'.runs, o);
    }
    forall q | 0 <= q < |w'.runs| ensures RunInv(w', q) {
      assert RunInv(w, q);
    }
    SumUpdate(w.okrs, w.runs[r].okr, w'.okrs[w.runs[r].okr], IsActive());
  }

  ghost predicate Fits(w: World, o: nat, c: nat, agreement: nat, cmd: Command) {
    o < |w.okrs| && c < |w.caps| &&
    w.caps[c].okr == o && w.caps[c].agreement == agreement == w.okrs[o].agreement && cmd.asset == w.okrs[o].asset &&
    0 < cmd.amount <= w.okrs[o].limit - w.okrs[o].spent - w.okrs[o].reserved &&
    w.caps[c].claimed + cmd.amount <= w.caps[c].maxBudget && cmd.intent !in w.caps[c].intents &&
    (w.caps[c].maxUses > 0 ==> w.caps[c].uses < w.caps[c].maxUses)
  }

  lemma ReserveBalances(w: World, o: nat, c: nat, agreement: nat, kr: nat, cmd: Command, now: nat)
    requires Inv(w) && Fits(w, o, c, agreement, cmd)
    ensures var w' := Reserve(w, o, c, agreement, kr, cmd, now);
      (forall p :: 0 <= p < |w'.okrs| ==> Balanced(w', p)) && (forall d :: 0 <= d < |w'.caps| ==> CapInv(w', d))
  {
    var w' := Reserve(w, o, c, agreement, kr, cmd, now);
    var run := w'.runs[|w.runs|];
    forall p | 0 <= p < |w'.okrs| ensures Balanced(w', p) {
      assert Balanced(w, p);
      SumAppend(w.runs, run, HeldBy(p));
      SumAppend(w.runs, run, SpentBy(p));
    }
    forall d | 0 <= d < |w'.caps| ensures CapInv(w', d) {
      assert CapInv(w, d);
      SumAppend(w.runs, run, CapHeld(d));
      SumAppend(w.runs, run, CapSpent(d));
    }
  }

  lemma ReserveKeeps(w: World, o: nat, c: nat, agreement: nat, kr: nat, cmd: Command, now: nat)
    requires Inv(w) && Fits(w, o, c, agreement, cmd)
    ensures Inv(Reserve(w, o, c, agreement, kr, cmd, now))
  {
    ReserveBalances(w, o, c, agreement, kr, cmd, now);
    var w' := Reserve(w, o, c, agreement, kr, cmd, now);
    forall p | 0 <= p < |w'.okrs| ensures Ordered(w'.okrs[p], w'.runs, p) {
      assert Ordered(w.okrs[p], w.runs, p);
      OrderedStable(w.okrs[p], w.runs, w'.runs, p);
    }
    forall q | 0 <= q < |w'.runs| ensures RunInv(w', q) {
      if q < |w.runs| {
        assert RunInv(w, q);
      }
    }
    SumUpdate(w.okrs, o, w'.okrs[o], IsActive());
  }

  lemma PrepareKeeps(w: World, o: nat, c: nat, agreement: nat, kr: nat, scheduled: bool, cmd: Command, now: nat)
    requires Inv(w) && DoPrepare(w, o, c, agreement, kr, scheduled, cmd, now).Done?
    ensures Inv(DoPrepare(w, o, c, agreement, kr, scheduled, cmd, now).state)
  {
    if cmd.id !in w.caps[c].commands {
      ReserveKeeps(w, o, c, agreement, kr, cmd, now);
    }
  }

  lemma NewOkrKeeps(w: World, k: Okr)
    requires Inv(w) && Ordered(k, w.runs, |w.okrs|) && k.phase.Draft? && k.reserved == k.spent == 0
    ensures Inv(w.(okrs := w.okrs + [k]))
  {
    var w' := w.(okrs := w.okrs + [k]);
    var n := |w.okrs|;
    SumAppend(w.okrs, k, IsActive());
    forall r | 0 <= r < |w'.runs| ensures RunInv(w', r) && w.runs[r].okr != n {
      assert RunInv(w, r);
    }
    SumZero(w.runs, HeldBy(n));
    SumZero(w.runs, SpentBy(n));
    forall o | 0 <= o < |w'.okrs| ensures Balanced(w', o) && Ordered(w'.okrs[o], w'.runs, o) {
      if o < n {
        assert Balanced(w, o);
      }
    }
    forall c | 0 <= c < |w'.caps| ensures CapInv(w', c) {
      assert CapInv(w, c);
    }
  }

  lemma NewCapKeeps(w: World, cap: Cap)
    requires Inv(w) && cap.okr < |w.okrs| && cap.agreement <= w.okrs[cap.okr].agreement
    requires cap.claimed == cap.spent == cap.reserved == cap.uses == 0
    ensures Inv(w.(caps := w.caps + [cap]))
  {
    var w' := w.(caps := w.caps + [cap]);
    var n := |w.caps|;
    forall r | 0 <= r < |w'.runs| ensures RunInv(w', r) && w.runs[r].cap != n {
      assert RunInv(w, r);
    }
    SumZero(w.runs, CapHeld(n));
    SumZero(w.runs, CapSpent(n));
    forall o | 0 <= o < |w'.okrs| ensures Balanced(w', o) && Ordered(w'.okrs[o], w'.runs, o) {
      assert Balanced(w, o);
    }
    forall c | 0 <= c < |w'.caps| ensures CapInv(w', c) {
      if c < n {
        assert CapInv(w, c);
      }
    }
  }

  lemma RevokeKeeps(w: World, c: nat)
    requires Inv(w) && c < |w.caps|
    ensures Inv(w.(caps := w.caps[c := w.caps[c].(revoked := true, revision := w.caps[c].revision + 1)]))
  {
    var w' := w.(caps := w.caps[c := w.caps[c].(revoked := true, revision := w.caps[c].revision + 1)]);
    forall o | 0 <= o < |w'.okrs| ensures Balanced(w', o) && Ordered(w'.okrs[o], w'.runs, o) {
      assert Balanced(w, o);
    }
    forall d | 0 <= d < |w'.caps| ensures CapInv(w', d) {
      assert CapInv(w, d);
    }
    forall r | 0 <= r < |w'.runs| ensures RunInv(w', r) {
      assert RunInv(w, r);
    }
  }

  // ------------------------------------------------------------ every transaction

  lemma ActivateKeeps(w: World, call: Call)
    requires Inv(w) && Apply(w, call).Done? && call.op.Activate?
    ensures Inv(Apply(w, call).state)
  {
    var o, w' := call.op.okr, Apply(w, call).state;
    assert Balanced(w, o) && Ordered(w.okrs[o], w.runs, o);
    OkrChange(w, o, w'.okrs[o], w');
  }

  /** Pausing, accepting and archiving leave the Active phase. */
  lemma LeaveKeeps(w: World, call: Call)
    requires Inv(w) && Apply(w, call).Done? && (call.op.Pause? || call.op.Achieve? || call.op.Archive?)
    ensures Inv(Apply(w, call).state)
  {
    var o, w' := call.op.okr, Apply(w, call).state;
    assert Balanced(w, o) && Ordered(w.okrs[o], w.runs, o);
    SumAtLeast(w.okrs, o, IsActive());
    OkrChange(w, o, w'.okrs[o], w');
  }

  lemma ProgressKeeps(w: World, call: Call)
    requires Inv(w) && Apply(w, call).Done? && (call.op.ReplaceSpec? || call.op.Verify? || call.op.Observe?)
    ensures Inv(Apply(w, call).state)
  {
    var o, w' := call.op.okr, Apply(w, call).state;
    assert Balanced(w, o) && Ordered(w.okrs[o], w.runs, o);
    OkrChange(w, o, w'.okrs[o], w');
  }

  lemma OkrEntryKeeps(w: World, call: Call)
    requires Inv(w) && Apply(w, call).Done? && IsOkrEntry(call.op)
    ensures Inv(Apply(w, call).state)
  {
    if call.op.Activate? {
      ActivateKeeps(w, call);
    } else if call.op.Pause? || call.op.Achieve? || call.op.Archive? {
      LeaveKeeps(w, call);
    } else {
      ProgressKeeps(w, call);
    }
  }

  lemma BeginKeeps(w: World, r: nat, now: nat)
    requires Inv(w) && DoBegin(w, r, now).Done?
    ensures Inv(DoBegin(w, r, now).state)
  {
    assert RunInv(w, r);
    RunChange(w, r, DoBegin(w, r, now).state.runs[r]);
  }

  /** The saved results play no part in the invariant. */
  lemma ResultsKeep(w: World, results: set<nat>)
    requires Inv(w)
    ensures Inv(w.(results := results))
  {
    var w' := w.(results := results);
    forall o | 0 <= o < |w'.okrs| ensures Balanced(w', o) && Ordered(w'.okrs[o], w'.runs, o) {
      assert Balanced(w, o);
    }
    forall c | 0 <= c < |w'.caps| ensures CapInv(w', c) {
      assert CapInv(w, c);
    }
    forall r | 0 <= r < |w'.runs| ensures RunInv(w', r) {
      assert RunInv(w, r);
    }
  }

  lemma FinishKeeps(w: World, r: nat, final: RunState, cursor: nat, spent: nat)
    requires Inv(w) && DoFinish(w, r, final, cursor, spent).Done?
    ensures Inv(DoFinish(w, r, final, cursor, spent).state)
  {
    assert RunInv(w, r);
    var w' := w.(results := w.results + {w.runs[r].command.intent});
    ResultsKeep(w, w'.results);
    if final.NeedsConfirmation? {
      RunChange(w', r, w.runs[r].(state := final, cursor := w.runs[r].cursor + 1));
    } else {
      SettleKeeps(w', r, spent, final, w.runs[r].stop);
    }
  }

  lemma StopKeeps(w: World, r: nat)
    requires Inv(w) && DoRequestStop(w, r).Done?
    ensures Inv(DoRequestStop(w, r).state)
  {
    assert RunInv(w, r);
    if w.runs[r].state.Queued? {
      SettleKeeps(w, r, 0, Cancelled, true);
    } else {
      RunChange(w, r, DoRequestStop(w, r).state.runs[r]);
    }
  }

  lemma StepKeeps(w: World, call: Call)
    requires Inv(w)
    ensures Inv(Step(w, call))
  {
    if Apply(w, call).Done? {
      match call.op
      case CreateDraft(deadline, metrics) =>
        NewOkrKeeps(w, Okr(Draft, 1, 0, deadline, metrics, 0, "", 0, 0, 0, 0, 0, None));
      case IssueCapability(o, version, maxUses) =>
        NewCapKeeps(w, Step(w, call).caps[|w.caps|]);
      case RevokeCapability(c) => RevokeKeeps(w, c);
      case SaveRecord(intent) => ResultsKeep(w, w.results + {intent});
      case Prepare(o, c, agreement, kr, scheduled, cmd) => PrepareKeeps(w, o, c, agreement, kr, scheduled, cmd,
        call.now);
      case Begin(r) => BeginKeeps(w, r, call.now);
      case Finish(r, final, cursor, spent) => FinishKeeps(w, r, final, cursor, spent);
      case RequestStop(r) => StopKeeps(w, r);
      case _ => OkrEntryKeeps(w, call);
    }
  }

  /** Every run of the contract, from the empty ledger or any sound one, ends in a sound ledger. */
  lemma {:induction false} ExecuteKeeps(w: World, calls: seq<Call>)
    requires Inv(w)
    ensures Inv(Execute(w, calls))
    decreases |calls|
  {
    if calls != [] {
      StepKeeps(w, calls[0]);
      ExecuteKeeps(Step(w, calls[0]), calls[1..]);
    }
  }

  // ------------------------------------------------------------- budget theorems

  ghost function AmountOf(o: nat): Run -> nat { (r: Run) => if r.okr == o then r.command.amount else 0 }
  ghost function Refund(o: nat): Run -> nat {
    (r: Run) => if r.okr == o && r.okrClaim.settled && r.okrClaim.spent <= r.command.amount
      then r.command.amount - r.okrClaim.spent else 0
  }

  lemma {:induction false} SplitAmounts(runs: seq<Run>, o: nat)
    requires forall r :: 0 <= r < |runs| ==>
      runs[r].okrClaim.reserved == runs[r].command.amount && runs[r].okrClaim.spent <= runs[r].command.amount
    ensures Sum(runs, AmountOf(o)) == Sum(runs, HeldBy(o)) + Sum(runs, SpentBy(o)) + Sum(runs, Refund(o))
  {
    if runs != [] {
      SplitAmounts(runs[..|runs| - 1], o);
    }
  }

  /** After any run from the empty ledger, every amount ever prepared is reserved, spent or refunded, and the limit
      holds. */
  lemma BudgetConserved(calls: seq<Call>, o: nat)
    ensures var w := Execute(EMPTY, calls);
      o < |w.okrs| ==>
        w.okrs[o].reserved == Sum(w.runs, HeldBy(o)) &&
        w.okrs[o].spent == Sum(w.runs, SpentBy(o)) &&
        Sum(w.runs, AmountOf(o)) == w.okrs[o].reserved + w.okrs[o].spent + Sum(w.runs, Refund(o)) &&
        w.okrs[o].spent + w.okrs[o].reserved <= w.okrs[o].limit
  {
    ExecuteKeeps(EMPTY, calls);
    var w := Execute(EMPTY, calls);
    if o < |w.okrs| {
      assert Balanced(w, o);
      forall r | 0 <= r < |w.runs|
        ensures w.runs[r].okrClaim.reserved == w.runs[r].command.amount &&
          w.runs[r].okrClaim.spent <= w.runs[r].command.amount
      {
        assert RunInv(w, r);
      }
      SplitAmounts(w.runs, o);
    }
  }

  /** The settlement a transaction performs on a Run, read off the call and the Run alone. */
  ghost predicate Settles(w: World, call: Call, r: nat)
    requires r < |w.runs|
  {
    (call.op.Finish? && call.op.run == r && !call.op.final.NeedsConfirmation?) ||
    (call.op.RequestStop? && call.op.run == r && w.runs[r].state.Queued?)
  }

  predicate IsOkrEntry(op: Op) {
    op.Activate? || op.Pause? || op.ReplaceSpec? || op.Verify? || op.Achieve? || op.Archive? || op.Observe?
  }

  predicate IsRunEntry(op: Op) { op.Begin? || op.Finish? || op.RequestStop? }

  /** Entries that change an OKR touch no Run, no capability and no ledger total. */
  lemma OkrEntryFrame(w: World, call: Call)
    requires IsOkrEntry(call.op) && Apply(w, call).Done?
    ensures var w' := Apply(w, call).state;
      var o := call.op.okr;
      o < |w.okrs| && |w'.okrs| == |w.okrs| && w'.caps == w.caps && w'.runs == w.runs &&
        w'.okrs == w.okrs[o := w'.okrs[o]] &&
      w'.okrs[o].reserved == w.okrs[o].reserved && w'.okrs[o].spent == w.okrs[o].spent
    ensures OkrLater(w.okrs[call.op.okr], Apply(w, call).state.okrs[call.op.okr])
  {
  }

  /** A committed preparation is an exact replay that changes nothing, or one new Run for an unseen command. */
  lemma PrepareFrame(w: World, o: nat, c: nat, agreement: nat, kr: nat, scheduled: bool, cmd: Command, now: nat)
    requires DoPrepare(w, o, c, agreement, kr, scheduled, cmd, now).Done?
    ensures o < |w.okrs| && c < |w.caps|
    ensures var w' := DoPrepare(w, o, c, agreement, kr, scheduled, cmd, now).state;
      if cmd.id in w.caps[c].commands then w' == w && cmd.intent in w.caps[c].intents
      else (
        w' == Reserve(w, o, c, agreement, kr, cmd, now) && cmd.intent !in w.caps[c].intents &&
        w'.okrs[o].reserved > w.okrs[o].reserved)
  {
  }

  /** The call settled one of the OKR's own Runs, releasing exactly its allowance and booking exactly the reported
      spend. */
  ghost predicate Released(w: World, call: Call, w': World, o: nat) {
    (call.op.Finish? || call.op.RequestStop?) &&
    var r := call.op.run;
    r < |w.runs| && w.runs[r].okr == o && !w.runs[r].okrClaim.settled && Settles(w, call, r) &&
    o < |w.okrs| && o < |w'.okrs| &&
    w'.okrs[o].reserved + w.runs[r].command.amount == w.okrs[o].reserved &&
    w'.okrs[o].spent == w.okrs[o].spent + (if call.op.Finish? then call.op.spent else 0)
  }

  /** Only settling one of its own Runs lowers an OKR's reservation: pause, expiry, archive and renewal release
      nothing. */
  lemma ReleasedOnlyBySettling(w: World, call: Call, w': World, o: nat)
    requires Inv(w)
    ensures
      (Apply(w, call) == Done(w') && o < |w.okrs| && o < |w'.okrs| && w'.okrs[o].reserved < w.okrs[o].reserved) ==>
      Released(w, call, w', o)
  {
    if Apply(w, call) == Done(w') && o < |w.okrs| && o < |w'.okrs| && w'.okrs[o].reserved < w.okrs[o].reserved {
      if IsOkrEntry(call.op) {
        OkrEntryFrame(w, call);
      } else if call.op.Prepare? {
        PrepareFrame(w, call.op.okr, call.op.cap, call.op.agreement, call.op.kr, call.op.scheduled, call.op.command,
          call.now);
      } else if IsRunEntry(call.op) {
        assert RunInv(w, call.op.run);
      }
    }
  }

  /** A result can be reported in every phase of the OKR, at any time and after the capability was revoked, exactly
      for a running Run at its cursor, within its allowance, whose intent has no saved result yet. */
  lemma FinishExactly(w: World, r: nat, final: RunState, cursor: nat, spent: nat)
    requires Inv(w) && r < |w.runs|
    ensures DoFinish(w, r, final, cursor, spent).Done? <==>
      w.runs[r].state.Running? && w.runs[r].cursor == cursor && w.runs[r].command.intent !in w.results &&
      spent <= w.runs[r].command.amount &&
      (final.Succeeded? || final.Failed? || (final.Cancelled? && w.runs[r].stop) ||
        (final.NeedsConfirmation? && spent == 0))
  {
    SettleEnabled(w, r);
  }

  lemma SettleEnabled(w: World, r: nat)
    requires Inv(w) && r < |w.runs|
    ensures RunInv(w, r) && Balanced(w, w.runs[r].okr) && CapInv(w, w.runs[r].cap)
    ensures !Final(w.runs[r].state) ==>
      w.caps[w.runs[r].cap].reserved >= w.runs[r].command.amount &&
        w.okrs[w.runs[r].okr].reserved >= w.runs[r].command.amount
  {
    assert RunInv(w, r);
    SumAtLeast(w.runs, r, HeldBy(w.runs[r].okr));
    SumAtLeast(w.runs, r, CapHeld(w.runs[r].cap));
  }

  /** Stopping is possible exactly for queued and running Runs; a queued one is refunded in full, a running one keeps
      its reservation. */
  lemma StopAlwaysPossible(w: World, r: nat)
    requires Inv(w) && r < |w.runs|
    ensures DoRequestStop(w, r).Done? <==> w.runs[r].state.Queued? || w.runs[r].state.Running?
    ensures w.runs[r].state.Queued? ==>
      var w' := DoRequestStop(w, r).state;
      var o := w.runs[r].okr;
      w'.runs[r].state.Cancelled? && w'.runs[r].okrClaim == Claim(w.runs[r].command.amount, 0, true) &&
      w'.okrs[o].reserved == w.okrs[o].reserved - w.runs[r].command.amount && w'.okrs[o].spent == w.okrs[o].spent
    ensures w.runs[r].state.Running? ==>
      DoRequestStop(w, r).state.okrs == w.okrs && DoRequestStop(w, r).state.runs[r].stop &&
        DoRequestStop(w, r).state.runs[r].okrClaim == w.runs[r].okrClaim
  {
    SettleEnabled(w, r);
  }

  // ------------------------------------------------------------ progress theorems

  /** A Run starts only for the KR at the cursor, under the current agreement, with every earlier KR verified, even
      when it was queued ahead. */
  lemma StartsInOrder(calls: seq<Call>, r: nat, now: nat)
    requires DoBegin(Execute(EMPTY, calls), r, now).Done?
    ensures var w := Execute(EMPTY, calls);
      var run := w.runs[r];
      var k := w.okrs[run.okr];
      k.phase.Active? && now < k.expires && run.agreement == k.agreement && run.kr == k.nextKr < |k.metrics| &&
      (forall i :: 0 <= i < |k.metrics| ==> (k.metrics[i].verified <==> i < run.kr)) &&
      !run.okrClaim.settled && k.reserved >= run.command.amount
  {
    ExecuteKeeps(EMPTY, calls);
    var w := Execute(EMPTY, calls);
    SettleEnabled(w, r);
    assert Ordered(w.okrs[w.runs[r].okr], w.runs, w.runs[r].okr);
  }

  /** In every reachable ledger the verified KRs of every OKR are exactly those below its cursor. */
  lemma VerifiedBelowCursor(calls: seq<Call>, o: nat, i: nat)
    ensures var w := Execute(EMPTY, calls);
      o < |w.okrs| && i < |w.okrs[o].metrics| ==> (w.okrs[o].metrics[i].verified <==> i < w.okrs[o].nextKr)
  {
    ExecuteKeeps(EMPTY, calls);
    var w := Execute(EMPTY, calls);
    if o < |w.okrs| {
      assert Ordered(w.okrs[o], w.runs, o);
    }
  }

  /** In every reachable ledger a started Run of the current agreement has only verified KRs before it. */
  lemma ProgressInOrder(calls: seq<Call>, r: nat, i: nat)
    ensures var w := Execute(EMPTY, calls);
      r < |w.runs| && Started(w.runs[r].state) ==>
        w.runs[r].okr < |w.okrs| &&
        var k := w.okrs[w.runs[r].okr];
        (w.runs[r].agreement == k.agreement && i < w.runs[r].kr && i < |k.metrics| ==> k.metrics[i].verified)
  {
    ExecuteKeeps(EMPTY, calls);
    var w := Execute(EMPTY, calls);
    if r < |w.runs| {
      assert RunInv(w, r);
      VerifiedBelowCursor(calls, w.runs[r].okr, i);
    }
  }

  /** An accepted OKR has every KR verified, its target met, and a succeeded Run of that KR as evidence. */
  lemma AcceptedOnlyWithEvidence(calls: seq<Call>, o: nat, i: nat)
    ensures var w := Execute(EMPTY, calls);
      o < |w.okrs| && w.okrs[o].phase.Achieved? && i < |w.okrs[o].metrics| ==>
        var m := w.okrs[o].metrics[i];
        m.verified && TargetMet(m) && Evidence(w.runs, o, i, m.sample.value)
  {
    ExecuteKeeps(EMPTY, calls);
    var w := Execute(EMPTY, calls);
    if o < |w.okrs| {
      assert Ordered(w.okrs[o], w.runs, o);
    }
  }

  /** The organization never has more than three active OKRs, and its counter is exact. */
  lemma ActiveSlots(calls: seq<Call>)
    ensures var w := Execute(EMPTY, calls);
      w.active == Sum(w.okrs, IsActive()) <= 3
  {
    ExecuteKeeps(EMPTY, calls);
  }

  // ------------------------------------------------------------- whole continuations

  ghost predicate OkrLater(k: Okr, k': Okr) {
    k.version <= k'.version && k.spent <= k'.spent &&
    (k.agreement < k'.agreement || (k.agreement == k'.agreement && k.nextKr <= k'.nextKr))
  }

  ghost predicate Extends(m: map<nat, nat>, m': map<nat, nat>) {
    forall x :: x in m ==> Maps(m', x, m[x])
  }

  ghost predicate CapLater(c: Cap, c': Cap) {
    c'.okr == c.okr && c'.agreement == c.agreement && c'.maxBudget == c.maxBudget && c.spent <= c'.spent &&
      c.uses <= c'.uses &&
    (c.revoked ==> c'.revoked) && c.revision <= c'.revision && Extends(c.commands, c'.commands) &&
      Extends(c.intents, c'.intents)
  }

  /** A Run keeps its command and allowance, moves forward only, and is frozen once final or parked. */
  ghost predicate RunLater(r: Run, r': Run) {
    r'.okr == r.okr && r'.cap == r.cap && r'.agreement == r.agreement && r'.kr == r.kr && r'.command == r.command &&
      r'.created == r.created &&
    r'.okrClaim.reserved == r.okrClaim.reserved && r.cursor <= r'.cursor && (r.stop ==> r'.stop) &&
    (r'.state.Queued? ==> r == r') && (Final(r.state) || r.state.NeedsConfirmation? ==> r == r')
  }

  ghost predicate OkrsLater(s: seq<Okr>, s': seq<Okr>) {
    |s| <= |s'| && forall i {:trigger s[i]} {:trigger s'[i]} :: 0 <= i < |s| ==> OkrLater(s[i], s'[i])
  }

  ghost predicate CapsLater(s: seq<Cap>, s': seq<Cap>) {
    |s| <= |s'| && forall i {:trigger s[i]} {:trigger s'[i]} :: 0 <= i < |s| ==> CapLater(s[i], s'[i])
  }

  ghost predicate RunsLater(s: seq<Run>, s': seq<Run>) {
    |s| <= |s'| && forall i {:trigger s[i]} {:trigger s'[i]} :: 0 <= i < |s| ==> RunLater(s[i], s'[i])
  }

  ghost predicate Later(w: World, w': World) {
    w.results <= w'.results && OkrsLater(w.okrs, w'.okrs) && CapsLater(w.caps, w'.caps) && RunsLater(w.runs, w'.runs)
  }

  lemma LaterTransitive(a: World, b: World, c: World)
    requires Later(a, b) && Later(b, c)
    ensures Later(a, c)
  {
    assert OkrsLater(a.okrs, c.okrs);
    assert CapsLater(a.caps, c.caps) by {
      forall i | 0 <= i < |a.caps| ensures CapLater(a.caps[i], c.caps[i]) {
        assert CapLater(a.caps[i], b.caps[i]) && CapLater(b.caps[i], c.caps[i]);
      }
    }
    assert RunsLater(a.runs, c.runs);
  }

  lemma SettleLater(w: World, r: nat, spent: nat, state: RunState, stop: bool)
    requires r < |w.runs| && RunInv(w, r) && !Final(w.runs[r].state) && !w.runs[r].state.NeedsConfirmation?
    requires Final(state) && (w.runs[r].stop ==> stop) && Settle(w, r, spent, state, stop).Done?
    ensures Later(w, Settle(w, r, spent, state, stop).state)
  {
    var w' := Settle(w, r, spent, state, stop).state;
    assert RunsLater(w.runs, w'.runs);
    assert OkrsLater(w.okrs, w'.okrs);
    assert CapsLater(w.caps, w'.caps);
  }

  lemma FinishLater(w: World, r: nat, final: RunState, cursor: nat, spent: nat)
    requires r < |w.runs| && RunInv(w, r) && DoFinish(w, r, final, cursor, spent).Done?
    ensures Later(w, DoFinish(w, r, final, cursor, spent).state)
  {
    if !final.NeedsConfirmation? {
      SettleLater(w.(results := w.results + {w.runs[r].command.intent}), r, spent, final, w.runs[r].stop);
    }
  }

  lemma StopLater(w: World, r: nat)
    requires r < |w.runs| && RunInv(w, r) && DoRequestStop(w, r).Done?
    ensures Later(w, DoRequestStop(w, r).state)
  {
    if w.runs[r].state.Queued? {
      SettleLater(w, r, 0, Cancelled, true);
    }
  }

  lemma RunEntryLater(w: World, call: Call)
    requires Inv(w) && IsRunEntry(call.op) && Apply(w, call).Done?
    ensures Later(w, Apply(w, call).state)
  {
    assert RunInv(w, call.op.run);
    if call.op.Finish? {
      FinishLater(w, call.op.run, call.op.final, call.op.cursor, call.op.spent);
    } else if call.op.RequestStop? {
      StopLater(w, call.op.run);
    }
  }

  lemma PrepareLater(w: World, o: nat, c: nat, agreement: nat, kr: nat, scheduled: bool, cmd: Command, now: nat)
    requires DoPrepare(w, o, c, agreement, kr, scheduled, cmd, now).Done?
    ensures Later(w, DoPrepare(w, o, c, agreement, kr, scheduled, cmd, now).state)
  {
    PrepareFrame(w, o, c, agreement, kr, scheduled, cmd, now);
    var w' := DoPrepare(w, o, c, agreement, kr, scheduled, cmd, now).state;
    assert OkrsLater(w.okrs, w'.okrs);
    assert RunsLater(w.runs, w'.runs);
  }

  lemma StepLater(w: World, call: Call)
    requires Inv(w)
    ensures Later(w, Step(w, call))
  {
    if Apply(w, call).Done? {
      if IsOkrEntry(call.op) {
        OkrEntryFrame(w, call);
      } else if IsRunEntry(call.op) {
        RunEntryLater(w, call);
      } else if call.op.Prepare? {
        PrepareLater(w, call.op.okr, call.op.cap, call.op.agreement, call.op.kr, call.op.scheduled, call.op.command,
          call.now);
      }
    }
  }

  lemma {:induction false} ExecuteLater(w: World, calls: seq<Call>)
    requires Inv(w)
    ensures Later(w, Execute(w, calls))
    decreases |calls|
  {
    if calls != [] {
      StepLater(w, calls[0]);
      StepKeeps(w, calls[0]);
      ExecuteLater(Step(w, calls[0]), calls[1..]);
      LaterTransitive(w, Step(w, calls[0]), Execute(w, calls));
    }
  }

  /** Renewing, pausing or any other sequence of transactions never lowers what an OKR has spent. */
  lemma SpendingNeverResets(w: World, calls: seq<Call>, o: nat)
    requires Inv(w) && o < |w.okrs|
    ensures o < |Execute(w, calls).okrs| && w.okrs[o].spent <= Execute(w, calls).okrs[o].spent
  {
    ExecuteLater(w, calls);
  }

  /** A queued Run the agreement has moved past. */
  ghost predicate Stale(w: World, r: nat) {
    r < |w.runs| && w.runs[r].okr < |w.okrs| &&
    var run, k := w.runs[r], w.okrs[w.runs[r].okr];
    run.agreement < k.agreement || (run.agreement == k.agreement && run.kr < k.nextKr)
  }

  ghost predicate Idle(run: Run) {
    run.state.Queued? || (run.state.Cancelled? && run.okrClaim.spent == 0)
  }

  /** A queued Run is left alone, started by its own `Begin`, or cancelled for nothing. */
  lemma QueuedStep(w: World, call: Call, w': World, r: nat)
    requires Apply(w, call) == Done(w') && r < |w.runs| && r < |w'.runs| && w.runs[r].state.Queued? &&
      !w.runs[r].okrClaim.settled
    ensures Idle(w'.runs[r]) || call.op == Begin(r)
  {
    if IsOkrEntry(call.op) {
      OkrEntryFrame(w, call);
    } else if call.op.Prepare? {
      PrepareFrame(w, call.op.okr, call.op.cap, call.op.agreement, call.op.kr, call.op.scheduled, call.op.command,
        call.now);
    }
  }

  lemma StaleStep(w: World, call: Call, r: nat)
    requires Inv(w) && Stale(w, r) && Idle(w.runs[r])
    ensures Stale(Step(w, call), r) && Idle(Step(w, call).runs[r])
  {
    StepLater(w, call);
    assert RunInv(w, r);
    if Apply(w, call).Done? && w.runs[r].state.Queued? {
      QueuedStep(w, call, Apply(w, call).state, r);
    }
  }

  /** A queued Run of an older agreement, or of a KR already verified, never starts again: it waits or is cancelled
      at zero cost. */
  lemma {:induction false} StaleRunNeverStarts(w: World, calls: seq<Call>, r: nat)
    requires Inv(w) && Stale(w, r) && Idle(w.runs[r])
    ensures r < |Execute(w, calls).runs| && Idle(Execute(w, calls).runs[r])
    decreases |calls|
  {
    if calls != [] {
      StepKeeps(w, calls[0]);
      StaleStep(w, calls[0], r);
      StaleRunNeverStarts(Step(w, calls[0]), calls[1..], r);
    }
  }

  /** A Run with unknown side effects keeps its whole reservation whatever happens next. */
  lemma ParkedReservation(w: World, calls: seq<Call>, r: nat)
    requires Inv(w) && r < |w.runs| && w.runs[r].state.NeedsConfirmation?
    ensures var w' := Execute(w, calls);
      r < |w'.runs| && w'.runs[r] == w.runs[r] && !w'.runs[r].okrClaim.settled &&
      w.runs[r].okr < |w'.okrs| && w'.okrs[w.runs[r].okr].reserved >= w.runs[r].command.amount
  {
    ExecuteLater(w, calls);
    ExecuteKeeps(w, calls);
    SettleEnabled(Execute(w, calls), r);
  }

  /** Once prepared, a command never reserves again: at any later time its replay aborts or changes nothing. */
  lemma ReplayReservesNothing(w: World, o: nat, c: nat, agreement: nat, kr: nat, scheduled: bool, cmd: Command,
    now: nat,
                              calls: seq<Call>, again: nat, scheduled': bool)
    requires Inv(w) && DoPrepare(w, o, c, agreement, kr, scheduled, cmd, now).Done?
    ensures var w' := Execute(DoPrepare(w, o, c, agreement, kr, scheduled, cmd, now).state, calls);
      DoPrepare(w', o, c, agreement, kr, scheduled', cmd, again).Done? ==>
        DoPrepare(w', o, c, agreement, kr, scheduled', cmd, again).state == w'
  {
    var w1 := DoPrepare(w, o, c, agreement, kr, scheduled, cmd, now).state;
    PrepareKeeps(w, o, c, agreement, kr, scheduled, cmd, now);
    assert cmd.id in w1.caps[c].commands;
    ExecuteLater(w1, calls);
    assert CapLater(w1.caps[c], Execute(w1, calls).caps[c]);
  }
}
