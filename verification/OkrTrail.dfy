/**
 * The trail behind a ledger: every fact it holds was put there by a committed transaction that said
 * exactly that. `past` is the log of committed transactions, in order.
 */
module OkrTrail {
  import opened Common
  import opened OkrProtocol
  import opened OkrTheorems

  /** The transactions of a run that commit. */
  function Log(w: World, calls: seq<Call>): seq<Call>
    decreases |calls|
  {
    if calls == [] then [] else Now(w, calls[0]) + Log(Step(w, calls[0]), calls[1..])
  }

  // ------------------------------------------------------------ what the log says

  function Drafts(past: seq<Call>): nat {
    if past == [] then 0 else Drafts(past[..|past| - 1]) + (if past[|past| - 1].op.CreateDraft? then 1 else 0)
  }

  /** Transaction `j` approved the specification of OKR `o`: it created it, or replaced its specification. */
  ghost predicate Specifies(past: seq<Call>, j: nat, o: nat) {
    j < |past| &&
    ((past[j].op.CreateDraft? && Drafts(past[..j]) == o) || (past[j].op.ReplaceSpec? && past[j].op.okr == o))
  }

  /** Transaction `j` moved OKR `o` to another phase of its life. */
  ghost predicate Moves(past: seq<Call>, j: nat, o: nat) {
    j < |past| &&
    ((past[j].op.CreateDraft? && Drafts(past[..j]) == o) || (IsMove(past[j].op) && past[j].op.okr == o))
  }

  predicate IsMove(op: Op) { op.Activate? || op.Pause? || op.Achieve? || op.Archive? }

  function PhaseOf(op: Op): Phase
    requires op.CreateDraft? || IsMove(op)
  {
    match op
    case CreateDraft(_, _) => Draft
    case Activate(_, _, _, _, _, _) => Active
    case Pause(_, _) => Paused
    case Achieve(_, _, _) => Achieved
    case Archive(_, _) => Archived
  }

  /** The phase is the one the latest such transaction left. */
  ghost predicate PhaseFrom(k: Okr, o: nat, past: seq<Call>) {
    exists j: nat {:trigger Moves(past, j, o)} ::
      Moves(past, j, o) && (forall i: nat :: j < i ==> !Moves(past, i, o)) && k.phase == PhaseOf(past[j].op)
  }

  ghost predicate Activates(past: seq<Call>, j: nat, o: nat) {
    j < |past| && past[j].op.Activate? && past[j].op.okr == o
  }

  /** The criteria of OKR `o` are those of the latest specification approved for it. */
  ghost predicate SpecFrom(k: Okr, o: nat, past: seq<Call>) {
    exists j: nat {:trigger Specifies(past, j, o)} ::
      Specifies(past, j, o) && (forall i: nat :: j < i ==> !Specifies(past, i, o)) &&
      SameSpec(k, past[j].op)
  }

  ghost predicate SameSpec(k: Okr, op: Op)
    requires op.CreateDraft? || op.ReplaceSpec?
  {
    k.deadline == op.deadline && |k.metrics| == |op.metrics| &&
    forall i {:trigger k.metrics[i]} :: 0 <= i < |k.metrics| ==>
      k.metrics[i].baseline == op.metrics[i].baseline && k.metrics[i].target == op.metrics[i].target &&
      k.metrics[i].weight == op.metrics[i].weight && k.metrics[i].maxAge == op.metrics[i].maxAge
  }

  /** Asset, limit, expiry and call ceiling are those of the latest activation. */
  ghost predicate TermsFrom(k: Okr, o: nat, past: seq<Call>) {
    exists j: nat {:trigger Activates(past, j, o)} ::
      Activates(past, j, o) && (forall i: nat :: j < i ==> !Activates(past, i, o)) && SameTerms(k, past[j])
  }

  ghost predicate SameTerms(k: Okr, call: Call)
    requires call.op.Activate?
  {
    k.asset == call.op.asset && k.limit == call.op.limit && k.expires == call.op.expires && k.activatedAt == call.now &&
    (k.policy.Some? && k.policy.value.agreement == k.agreement ==> call.op.maxCalls == Some(k.policy.value.maxCalls))
  }

  /** A Host reported this very value, for this KR and Run, sampled at this time. */
  ghost predicate Reported(past: seq<Call>, o: nat, kr: nat, s: Sample) {
    exists j: nat {:trigger past[j]} :: j < |past| && past[j].op.Observe? && past[j].op.okr == o &&
      past[j].op.kr == kr &&
      past[j].op.run == s.run && past[j].op.value == s.value && past[j].op.sampledAt == s.at
  }

  ghost predicate VerifiedBy(past: seq<Call>, o: nat, kr: nat) {
    exists j: nat {:trigger past[j]} :: j < |past| && past[j].op.Verify? && past[j].op.okr == o && past[j].op.kr == kr
  }

  ghost predicate AcceptedBy(past: seq<Call>, o: nat) {
    exists j: nat {:trigger past[j]} :: j < |past| && past[j].op.Achieve? && past[j].op.okr == o && past[j].op.confirmed
  }

  ghost predicate OkrTraced(k: Okr, o: nat, past: seq<Call>) {
    SpecFrom(k, o, past) && PhaseFrom(k, o, past) && (k.limit > 0 ==> TermsFrom(k, o, past)) &&
    (k.policy.Some? ==> k.policy.value.agreement <= k.agreement && k.limit > 0) &&
    (k.phase.Active? ==> k.limit > 0) && (k.phase.Achieved? ==> AcceptedBy(past, o)) &&
    forall i {:trigger k.metrics[i]} :: 0 <= i < |k.metrics| ==>
      (k.metrics[i].sample.Some? ==> Reported(past, o, i, k.metrics[i].sample.value)) &&
      (k.metrics[i].verified ==> VerifiedBy(past, o, i))
  }

  /** A capability was issued with this many uses, and its budget, asset and expiry come from one activation. */
  ghost predicate CapTraced(cap: Cap, c: nat, past: seq<Call>) {
    (cap.revoked ==> RevokedBy(past, c)) &&
    (exists j: nat {:trigger past[j]} :: j < |past| && past[j].op.IssueCapability? && past[j].op.okr == cap.okr &&
      past[j].op.maxUses == cap.maxUses) &&
    (exists j: nat {:trigger past[j]} :: j < |past| && past[j].op.Activate? && past[j].op.okr == cap.okr &&
      past[j].op.asset == cap.asset && past[j].op.expires == cap.expires && past[j].op.maxCalls == Some(cap.maxBudget))
  }

  ghost predicate RevokedBy(past: seq<Call>, c: nat) {
    exists j: nat {:trigger past[j]} :: j < |past| && past[j].op == RevokeCapability(c)
  }

  ghost predicate PreparedBy(past: seq<Call>, run: Run) {
    exists j: nat {:trigger past[j]} :: j < |past| && past[j].op.Prepare? && past[j].op.okr == run.okr &&
      past[j].op.cap == run.cap && past[j].op.agreement == run.agreement && past[j].op.kr == run.kr &&
      past[j].op.command == run.command && past[j].now == run.created
  }

  ghost predicate BegunBy(past: seq<Call>, r: nat) {
    exists j: nat {:trigger past[j]} :: j < |past| && past[j].op == Begin(r)
  }

  ghost predicate FinishedBy(past: seq<Call>, r: nat, state: RunState, spent: nat) {
    exists j: nat {:trigger past[j]} :: j < |past| && past[j].op.Finish? && past[j].op.run == r &&
      past[j].op.final == state && past[j].op.spent == spent
  }

  ghost predicate StoppedBy(past: seq<Call>, r: nat) {
    exists j: nat {:trigger past[j]} :: j < |past| && past[j].op == RequestStop(r)
  }

  /** A Run carries the command it was prepared with, and its state and spend are what its Host reported. */
  ghost predicate RunTraced(run: Run, r: nat, past: seq<Call>) {
    PreparedBy(past, run) && (Started(run.state) ==> BegunBy(past, r)) && (run.stop ==> StoppedBy(past, r)) &&
    (run.state.Succeeded? || run.state.Failed? || run.state.NeedsConfirmation? ==>
      FinishedBy(past, r, run.state, run.okrClaim.spent)) &&
    (run.state.Cancelled? ==> FinishedBy(past, r, Cancelled, run.okrClaim.spent) || run.okrClaim.spent == 0)
  }

  ghost predicate Traced(w: World, past: seq<Call>) {
    OkrsFrom(w.okrs, past) && CapsFrom(w.caps, past) && RunsFrom(w.runs, past)
  }

  ghost predicate OkrsFrom(okrs: seq<Okr>, past: seq<Call>) {
    |okrs| == Drafts(past) && forall o :: 0 <= o < |okrs| ==> OkrTraced(okrs[o], o, past)
  }

  ghost predicate CapsFrom(caps: seq<Cap>, past: seq<Call>) {
    forall c :: 0 <= c < |caps| ==> CapTraced(caps[c], c, past)
  }

  ghost predicate RunsFrom(runs: seq<Run>, past: seq<Call>) {
    forall r :: 0 <= r < |runs| ==> RunTraced(runs[r], r, past)
  }

  // ------------------------------------------------------------ facts survive a longer log

  lemma DraftsMore(past: seq<Call>, call: Call)
    ensures Drafts(past + [call]) == Drafts(past) + (if call.op.CreateDraft? then 1 else 0)
    ensures forall j: nat {:trigger past[..j]} :: j <= |past| ==> (past + [call])[..j] == past[..j]
  {
    assert (past + [call])[..|past|] == past;
  }

  lemma SpecifiesMore(past: seq<Call>, call: Call, j: nat, o: nat)
    ensures j < |past| ==> (Specifies(past + [call], j, o) <==> Specifies(past, j, o))
    ensures j == |past| ==> (Specifies(past + [call], j, o) <==>
      ((call.op.CreateDraft? && Drafts(past) == o) || (call.op.ReplaceSpec? && call.op.okr == o)))
  {
    DraftsMore(past, call);
    if j < |past| {
      assert (past + [call])[..j] == past[..j] && (past + [call])[j] == past[j];
    } else if j == |past| {
      assert (past + [call])[..j] == past && (past + [call])[j] == call;
    }
  }

  lemma MovesMore(past: seq<Call>, call: Call, j: nat, o: nat)
    ensures j < |past| ==> (Moves(past + [call], j, o) <==> Moves(past, j, o))
    ensures j == |past| ==> (Moves(past + [call], j, o) <==>
      ((call.op.CreateDraft? && Drafts(past) == o) || (IsMove(call.op) && call.op.okr == o)))
  {
    DraftsMore(past, call);
    if j < |past| {
      assert (past + [call])[..j] == past[..j] && (past + [call])[j] == past[j];
    } else if j == |past| {
      assert (past + [call])[..j] == past && (past + [call])[j] == call;
    }
  }

  lemma PhaseKept(k: Okr, k': Okr, o: nat, past: seq<Call>, call: Call)
    requires PhaseFrom(k, o, past) && o < Drafts(past) && !(IsMove(call.op) && call.op.okr == o) && k'.phase == k.phase
    ensures PhaseFrom(k', o, past + [call])
  {
    var j: nat :| Moves(past, j, o) && (forall i: nat :: j < i ==> !Moves(past, i, o)) &&
      k.phase == PhaseOf(past[j].op);
    forall i: nat | j < i ensures !Moves(past + [call], i, o) {
      MovesMore(past, call, i, o);
      assert i < |past| ==> !Moves(past, i, o);
    }
    MovesMore(past, call, j, o);
    assert Moves(past + [call], j, o) && (past + [call])[j] == past[j];
  }

  lemma PhaseNew(k: Okr, o: nat, past: seq<Call>, call: Call)
    requires (call.op.CreateDraft? && Drafts(past) == o) || (IsMove(call.op) && call.op.okr == o)
    requires k.phase == PhaseOf(call.op)
    ensures PhaseFrom(k, o, past + [call])
  {
    MovesMore(past, call, |past|, o);
    assert Moves(past + [call], |past|, o) && (past + [call])[|past|] == call;
  }

  lemma SpecKept(k: Okr, k': Okr, o: nat, past: seq<Call>, call: Call)
    requires SpecFrom(k, o, past) && o < Drafts(past) && !(call.op.ReplaceSpec? && call.op.okr == o)
    requires k'.deadline == k.deadline && |k'.metrics| == |k.metrics|
    requires forall i :: 0 <= i < |k.metrics| ==>
      k'.metrics[i] == k.metrics[i].(sample := k'.metrics[i].sample, verified := k'.metrics[i].verified)
    ensures SpecFrom(k', o, past + [call])
  {
    var j: nat :| Specifies(past, j, o) && (forall i: nat :: j < i ==> !Specifies(past, i, o)) &&
      SameSpec(k, past[j].op);
    forall i: nat | j < i ensures !Specifies(past + [call], i, o) {
      SpecifiesMore(past, call, i, o);
      assert i < |past| ==> !Specifies(past, i, o);
    }
    SpecifiesMore(past, call, j, o);
    assert Specifies(past + [call], j, o) && (past + [call])[j] == past[j];
    assert SameSpec(k', past[j].op) by {
      forall i | 0 <= i < |k'.metrics|
        ensures k'.metrics[i].baseline == past[j].op.metrics[i].baseline &&
          k'.metrics[i].target == past[j].op.metrics[i].target &&
          k'.metrics[i].weight == past[j].op.metrics[i].weight && k'.metrics[i].maxAge == past[j].op.metrics[i].maxAge
      {
        assert k.metrics[i].baseline == past[j].op.metrics[i].baseline;
      }
    }
  }

  lemma SpecNew(k: Okr, o: nat, past: seq<Call>, call: Call)
    requires (call.op.CreateDraft? && Drafts(past) == o) || (call.op.ReplaceSpec? && call.op.okr == o)
    requires SameSpec(k, call.op)
    ensures SpecFrom(k, o, past + [call])
  {
    SpecifiesMore(past, call, |past|, o);
    assert Specifies(past + [call], |past|, o) && (past + [call])[|past|] == call;
  }

  lemma TermsKept(k: Okr, k': Okr, o: nat, past: seq<Call>, call: Call)
    requires TermsFrom(k, o, past) && !(call.op.Activate? && call.op.okr == o)
    requires k'.asset == k.asset && k'.limit == k.limit && k'.expires == k.expires && k'.activatedAt == k.activatedAt
    requires k'.policy == k.policy && (k.policy.Some? && k.policy.value.agreement == k'.agreement ==>
      k'.agreement == k.agreement)
    ensures TermsFrom(k', o, past + [call])
  {
    var j: nat :| Activates(past, j, o) && (forall i: nat :: j < i ==> !Activates(past, i, o)) && SameTerms(k, past[j]);
    forall i: nat | j < i ensures !Activates(past + [call], i, o) {
      assert i < |past| ==> !Activates(past, i, o);
    }
    assert Activates(past + [call], j, o) && (past + [call])[j] == past[j];
  }

  lemma TermsNew(k: Okr, o: nat, past: seq<Call>, call: Call)
    requires call.op.Activate? && call.op.okr == o && SameTerms(k, call)
    ensures TermsFrom(k, o, past + [call])
  {
    assert Activates(past + [call], |past|, o) && (past + [call])[|past|] == call;
  }

  lemma ReportedMore(past: seq<Call>, call: Call, o: nat, kr: nat, s: Sample)
    requires Reported(past, o, kr, s) || (call.op.Observe? && call.op.okr == o && call.op.kr == kr &&
      call.op.run == s.run && call.op.value == s.value && call.op.sampledAt == s.at)
    ensures Reported(past + [call], o, kr, s)
  {
    var all := past + [call];
    if Reported(past, o, kr, s) {
      var j: nat :| j < |past| && past[j].op.Observe? && past[j].op.okr == o && past[j].op.kr == kr &&
        past[j].op.run == s.run && past[j].op.value == s.value && past[j].op.sampledAt == s.at;
      assert all[j] == past[j];
    } else {
      assert all[|past|] == call;
    }
  }

  lemma VerifiedMore(past: seq<Call>, call: Call, o: nat, kr: nat)
    requires VerifiedBy(past, o, kr) || (call.op.Verify? && call.op.okr == o && call.op.kr == kr)
    ensures VerifiedBy(past + [call], o, kr)
  {
    var all := past + [call];
    if VerifiedBy(past, o, kr) {
      var j: nat :| j < |past| && past[j].op.Verify? && past[j].op.okr == o && past[j].op.kr == kr;
      assert all[j] == past[j];
    } else {
      assert all[|past|] == call;
    }
  }

  lemma AcceptedMore(past: seq<Call>, call: Call, o: nat)
    requires AcceptedBy(past, o) || (call.op.Achieve? && call.op.okr == o && call.op.confirmed)
    ensures AcceptedBy(past + [call], o)
  {
    var all := past + [call];
    if AcceptedBy(past, o) {
      var j: nat :| j < |past| && past[j].op.Achieve? && past[j].op.okr == o && past[j].op.confirmed;
      assert all[j] == past[j];
    } else {
      assert all[|past|] == call;
    }
  }

  // ------------------------------------------------------------ every committed transaction keeps the trail

  /** An OKR whose agreement, criteria and terms a transaction leaves alone, or which only changes its phase. */
  lemma OkrKept(k: Okr, k': Okr, o: nat, past: seq<Call>, call: Call)
    requires OkrTraced(k, o, past) && o < Drafts(past)
    requires !(call.op.Activate? && call.op.okr == o) && !(call.op.ReplaceSpec? && call.op.okr == o)
    requires k' == k.(phase := k'.phase, version := k'.version, agreement := k'.agreement, metrics := k'.metrics,
      nextKr := k'.nextKr, spent := k'.spent, reserved := k'.reserved)
    requires k'.agreement >= k.agreement && |k'.metrics| == |k.metrics|
    requires if IsMove(call.op) && call.op.okr == o then k'.phase == PhaseOf(call.op) else k'.phase == k.phase
    requires k'.phase.Achieved? ==> k.phase.Achieved? || (call.op.Achieve? && call.op.okr == o && call.op.confirmed)
    requires forall i :: 0 <= i < |k.metrics| ==>
      k'.metrics[i] == k.metrics[i].(sample := k'.metrics[i].sample, verified := k'.metrics[i].verified)
    requires forall i :: 0 <= i < |k.metrics| && k'.metrics[i].sample.Some? ==>
      k'.metrics[i].sample == k.metrics[i].sample ||
      (call.op.Observe? && call.op.okr == o && call.op.kr == i && call.op.run == k'.metrics[i].sample.value.run &&
       call.op.value == k'.metrics[i].sample.value.value && call.op.sampledAt == k'.metrics[i].sample.value.at)
    requires forall i :: 0 <= i < |k.metrics| && k'.metrics[i].verified ==>
      k.metrics[i].verified || (call.op.Verify? && call.op.okr == o && call.op.kr == i)
    ensures OkrTraced(k', o, past + [call])
  {
    SpecKept(k, k', o, past, call);
    if IsMove(call.op) && call.op.okr == o { PhaseNew(k', o, past, call); } else { PhaseKept(k, k', o, past, call); }
    if k'.limit > 0 {
      TermsKept(k, k', o, past, call);
    }
    if k'.phase.Achieved? {
      AcceptedMore(past, call, o);
    }
    forall i | 0 <= i < |k'.metrics|
      ensures (k'.metrics[i].sample.Some? ==> Reported(past + [call], o, i, k'.metrics[i].sample.value)) &&
        (k'.metrics[i].verified ==> VerifiedBy(past + [call], o, i))
    {
      assert k.metrics[i].sample.Some? ==> Reported(past, o, i, k.metrics[i].sample.value);
      if k'.metrics[i].sample.Some? { ReportedMore(past, call, o, i, k'.metrics[i].sample.value); }
      if k'.metrics[i].verified { VerifiedMore(past, call, o, i); }
    }
  }

  lemma ActivateTraced(w: World, call: Call, past: seq<Call>)
    requires call.op.Activate? && Apply(w, call).Done? && OkrTraced(w.okrs[call.op.okr], call.op.okr, past)
    requires call.op.okr < Drafts(past)
    ensures OkrTraced(Apply(w, call).state.okrs[call.op.okr], call.op.okr, past + [call])
  {
    var o := call.op.okr;
    var k, k' := w.okrs[o], Apply(w, call).state.okrs[o];
    SpecKept(k, k', o, past, call);
    PhaseNew(k', o, past, call);
    TermsNew(k', o, past, call);
    forall i | 0 <= i < |k'.metrics|
      ensures (k'.metrics[i].sample.Some? ==> Reported(past + [call], o, i, k'.metrics[i].sample.value)) &&
        (k'.metrics[i].verified ==> VerifiedBy(past + [call], o, i))
    {
      if k.metrics[i].sample.Some? { ReportedMore(past, call, o, i, k.metrics[i].sample.value); }
      if k.metrics[i].verified { VerifiedMore(past, call, o, i); }
    }
  }

  lemma ReplaceTraced(w: World, call: Call, past: seq<Call>)
    requires call.op.ReplaceSpec? && Apply(w, call).Done? && OkrTraced(w.okrs[call.op.okr], call.op.okr, past)
    requires call.op.okr < Drafts(past)
    ensures OkrTraced(Apply(w, call).state.okrs[call.op.okr], call.op.okr, past + [call])
  {
    var o := call.op.okr;
    var k, k' := w.okrs[o], Apply(w, call).state.okrs[o];
    SpecNew(k', o, past, call);
    PhaseKept(k, k', o, past, call);
    if k'.limit > 0 {
      TermsKept(k, k', o, past, call);
    }
  }

  lemma DraftTraced(w: World, call: Call, past: seq<Call>)
    requires call.op.CreateDraft? && Apply(w, call).Done? && |w.okrs| == Drafts(past)
    ensures OkrTraced(Apply(w, call).state.okrs[|w.okrs|], |w.okrs|, past + [call])
  {
    SpecNew(Apply(w, call).state.okrs[|w.okrs|], |w.okrs|, past, call);
    PhaseNew(Apply(w, call).state.okrs[|w.okrs|], |w.okrs|, past, call);
  }

  /** The OKR an entry changes. */
  lemma OkrEntryTraced(w: World, call: Call, past: seq<Call>)
    requires IsOkrEntry(call.op) && Apply(w, call).Done? && call.op.okr < |w.okrs| <= Drafts(past)
    requires OkrTraced(w.okrs[call.op.okr], call.op.okr, past)
    ensures call.op.okr < |Apply(w, call).state.okrs|
    ensures OkrTraced(Apply(w, call).state.okrs[call.op.okr], call.op.okr, past + [call])
  {
    OkrEntryFrame(w, call);
    var o := call.op.okr;
    if call.op.Activate? {
      ActivateTraced(w, call, past);
    } else if call.op.ReplaceSpec? {
      ReplaceTraced(w, call, past);
    } else {
      OkrKept(w.okrs[o], Apply(w, call).state.okrs[o], o, past, call);
    }
  }

  /** Entries that work on Runs move only the totals of an OKR. */
  lemma TotalsOnly(w: World, call: Call, o: nat)
    requires IsRunEntry(call.op) && Apply(w, call).Done? && o < |w.okrs|
    ensures o < |Apply(w, call).state.okrs|
    ensures var k, k' := w.okrs[o], Apply(w, call).state.okrs[o]; k' == k.(spent := k'.spent, reserved := k'.reserved)
  {
  }

  lemma OkrsTraced(w: World, call: Call, past: seq<Call>, o: nat)
    requires Traced(w, past) && Apply(w, call).Done? && o < |Apply(w, call).state.okrs|
    ensures OkrTraced(Apply(w, call).state.okrs[o], o, past + [call])
  {
    if IsOkrEntry(call.op) {
      OkrEntryFrame(w, call);
      assert OkrTraced(w.okrs[o], o, past);
      if o == call.op.okr { OkrEntryTraced(w, call, past); } else { OkrKept(w.okrs[o], w.okrs[o], o, past, call); }
    } else if call.op.CreateDraft? {
      if o == |w.okrs| {
        DraftTraced(w, call, past);
      } else {
        assert OkrTraced(w.okrs[o], o, past);
        OkrKept(w.okrs[o], w.okrs[o], o, past, call);
      }
    } else {
      if call.op.Prepare? {
        PrepareFrame(w, call.op.okr, call.op.cap, call.op.agreement, call.op.kr, call.op.scheduled, call.op.command,
          call.now);
      } else if IsRunEntry(call.op) {
        if o < |w.okrs| { TotalsOnly(w, call, o); }
      }
      assert OkrTraced(w.okrs[o], o, past);
      OkrKept(w.okrs[o], Apply(w, call).state.okrs[o], o, past, call);
    }
  }

  // ------------------------------------------------------------ capabilities and Runs

  lemma CapKept(cap: Cap, cap': Cap, c: nat, past: seq<Call>, call: Call)
    requires CapTraced(cap, c, past) && (cap'.revoked ==> cap.revoked || call.op == RevokeCapability(c))
    requires cap'.okr == cap.okr && cap'.maxUses == cap.maxUses && cap'.asset == cap.asset &&
      cap'.expires == cap.expires &&
      cap'.maxBudget == cap.maxBudget
    ensures CapTraced(cap', c, past + [call])
  {
    var all := past + [call];
    var i: nat :| i < |past| && past[i].op.IssueCapability? && past[i].op.okr == cap.okr &&
      past[i].op.maxUses == cap.maxUses;
    var j: nat :| j < |past| && past[j].op.Activate? && past[j].op.okr == cap.okr && past[j].op.asset == cap.asset &&
      past[j].op.expires == cap.expires && past[j].op.maxCalls == Some(cap.maxBudget);
    assert all[i] == past[i] && all[j] == past[j] && all[|past|] == call;
    if cap.revoked {
      var n: nat :| n < |past| && past[n].op == RevokeCapability(c);
      assert all[n] == past[n];
    }
  }

  lemma CapIssued(w: World, call: Call, past: seq<Call>)
    requires call.op.IssueCapability? && Apply(w, call).Done? && OkrTraced(w.okrs[call.op.okr], call.op.okr, past)
    ensures CapTraced(Apply(w, call).state.caps[|w.caps|], |w.caps|, past + [call])
  {
    var k, all := w.okrs[call.op.okr], past + [call];
    var cap := Apply(w, call).state.caps[|w.caps|];
    assert cap.asset == k.asset && cap.expires == k.expires && cap.maxBudget == k.policy.value.maxCalls;
    assert TermsFrom(k, call.op.okr, past);
    var j: nat :| Activates(past, j, call.op.okr) && (forall i: nat :: j < i ==> !Activates(past, i, call.op.okr)) &&
      SameTerms(k, past[j]);
    assert all[|past|] == call && call.op.maxUses == cap.maxUses;
    assert all[j] == past[j] && all[j].op.maxCalls == Some(cap.maxBudget) && all[j].op.asset == cap.asset;
  }

  /** Apart from issuing one, every entry leaves a capability's terms alone. */
  lemma CapFrame(w: World, call: Call, c: nat)
    requires Apply(w, call).Done? && c < |w.caps|
    ensures c < |Apply(w, call).state.caps|
    ensures var cap, cap' := w.caps[c], Apply(w, call).state.caps[c];
      cap'.okr == cap.okr && cap'.maxUses == cap.maxUses && cap'.asset == cap.asset && cap'.expires == cap.expires &&
      cap'.maxBudget == cap.maxBudget && (cap'.revoked <==> cap.revoked || call.op == RevokeCapability(c))
  {
    if IsOkrEntry(call.op) {
      OkrEntryFrame(w, call);
    } else if call.op.Prepare? {
      PrepareFrame(w, call.op.okr, call.op.cap, call.op.agreement, call.op.kr, call.op.scheduled, call.op.command,
        call.now);
    }
  }

  lemma NewCap(w: World, call: Call)
    requires Apply(w, call).Done?
    ensures |Apply(w, call).state.caps| == |w.caps| + (if call.op.IssueCapability? then 1 else 0)
  {
    if IsOkrEntry(call.op) {
      OkrEntryFrame(w, call);
    } else if call.op.Prepare? {
      PrepareFrame(w, call.op.okr, call.op.cap, call.op.agreement, call.op.kr, call.op.scheduled, call.op.command,
        call.now);
    }
  }

  lemma CapsTraced(w: World, call: Call, past: seq<Call>, c: nat)
    requires Traced(w, past) && Apply(w, call).Done? && c < |Apply(w, call).state.caps|
    ensures CapTraced(Apply(w, call).state.caps[c], c, past + [call])
  {
    NewCap(w, call);
    if c < |w.caps| {
      CapFrame(w, call, c);
      assert CapTraced(w.caps[c], c, past);
      CapKept(w.caps[c], Apply(w, call).state.caps[c], c, past, call);
    } else {
      assert OkrTraced(w.okrs[call.op.okr], call.op.okr, past);
      CapIssued(w, call, past);
    }
  }

  lemma PreparedMore(past: seq<Call>, call: Call, run: Run)
    requires PreparedBy(past, run) || (call.op.Prepare? && call.op.okr == run.okr && call.op.cap == run.cap &&
      call.op.agreement == run.agreement && call.op.kr == run.kr && call.op.command == run.command &&
        call.now == run.created)
    ensures PreparedBy(past + [call], run)
  {
    var all := past + [call];
    if PreparedBy(past, run) {
      var j: nat :| j < |past| && past[j].op.Prepare? && past[j].op.okr == run.okr && past[j].op.cap == run.cap &&
        past[j].op.agreement == run.agreement && past[j].op.kr == run.kr && past[j].op.command == run.command &&
        past[j].now == run.created;
      assert all[j] == past[j];
    } else {
      assert all[|past|] == call;
    }
  }

  lemma RunFactsMore(past: seq<Call>, call: Call, r: nat)
    ensures BegunBy(past, r) || call.op == Begin(r) ==> BegunBy(past + [call], r)
    ensures StoppedBy(past, r) || call.op == RequestStop(r) ==> StoppedBy(past + [call], r)
  {
    var all := past + [call];
    assert all[|past|] == call;
    if BegunBy(past, r) {
      var j: nat :| j < |past| && past[j].op == Begin(r);
      assert all[j] == past[j];
    }
    if StoppedBy(past, r) {
      var j: nat :| j < |past| && past[j].op == RequestStop(r);
      assert all[j] == past[j];
    }
  }

  lemma FinishedMore(past: seq<Call>, call: Call, r: nat, state: RunState, spent: nat)
    requires FinishedBy(past, r, state, spent) ||
      (call.op.Finish? && call.op.run == r && call.op.final == state && call.op.spent == spent)
    ensures FinishedBy(past + [call], r, state, spent)
  {
    var all := past + [call];
    if FinishedBy(past, r, state, spent) {
      var j: nat :| j < |past| && past[j].op.Finish? && past[j].op.run == r && past[j].op.final == state &&
        past[j].op.spent == spent;
      assert all[j] == past[j];
    } else {
      assert all[|past|] == call;
    }
  }

  lemma RunKept(run: Run, r: nat, past: seq<Call>, call: Call)
    requires RunTraced(run, r, past)
    ensures RunTraced(run, r, past + [call])
  {
    PreparedMore(past, call, run);
    RunFactsMore(past, call, r);
    if run.state.Succeeded? || run.state.Failed? || run.state.NeedsConfirmation? {
      FinishedMore(past, call, r, run.state, run.okrClaim.spent);
    } else if run.state.Cancelled? && FinishedBy(past, r, Cancelled, run.okrClaim.spent) {
      FinishedMore(past, call, r, Cancelled, run.okrClaim.spent);
    }
  }

  lemma RunMoved(w: World, call: Call, past: seq<Call>)
    requires IsRunEntry(call.op) && Apply(w, call).Done? && call.op.run < |w.runs|
    requires RunInv(w, call.op.run) && RunTraced(w.runs[call.op.run], call.op.run, past)
    ensures call.op.run < |Apply(w, call).state.runs|
    ensures RunTraced(Apply(w, call).state.runs[call.op.run], call.op.run, past + [call])
  {
    var r := call.op.run;
    var run, run' := w.runs[r], Apply(w, call).state.runs[r];
    assert run' == run.(state := run'.state, stop := run'.stop, cursor := run'.cursor, okrClaim := run'.okrClaim,
      capClaim := run'.capClaim);
    assert PreparedBy(past, run') by { assert PreparedBy(past, run); PreparedSame(past, run, run'); }
    PreparedMore(past, call, run');
    RunFactsMore(past, call, r);
    if call.op.Finish? {
      FinishedMore(past, call, r, call.op.final, call.op.spent);
    }
  }

  lemma PreparedSame(past: seq<Call>, run: Run, run': Run)
    requires PreparedBy(past, run) && run'.okr == run.okr && run'.cap == run.cap && run'.agreement == run.agreement
    requires run'.kr == run.kr && run'.command == run.command && run'.created == run.created
    ensures PreparedBy(past, run')
  {
  }

  ghost predicate IsNewRun(run: Run, call: Call)
    requires call.op.Prepare?
  {
    run.okr == call.op.okr && run.cap == call.op.cap && run.agreement == call.op.agreement && run.kr == call.op.kr &&
    run.command == call.op.command && run.created == call.now && run.state.Queued? && !run.stop
  }

  /** A Run no entry addresses stays as it is; a new one is the Run just prepared. */
  lemma RunFrame(w: World, call: Call, r: nat)
    requires Apply(w, call).Done? && r < |Apply(w, call).state.runs| && !(IsRunEntry(call.op) && call.op.run == r)
    ensures r < |w.runs| ==> Apply(w, call).state.runs[r] == w.runs[r]
    ensures r >= |w.runs| ==> call.op.Prepare? && IsNewRun(Apply(w, call).state.runs[r], call)
  {
    if IsOkrEntry(call.op) {
      OkrEntryFrame(w, call);
    } else if call.op.Prepare? {
      PrepareFrame(w, call.op.okr, call.op.cap, call.op.agreement, call.op.kr, call.op.scheduled, call.op.command,
        call.now);
    }
  }

  lemma RunsTraced(w: World, call: Call, past: seq<Call>, r: nat)
    requires Inv(w) && Traced(w, past) && Apply(w, call).Done? && r < |Apply(w, call).state.runs|
    ensures RunTraced(Apply(w, call).state.runs[r], r, past + [call])
  {
    if IsRunEntry(call.op) && r == call.op.run {
      assert RunInv(w, r) && RunTraced(w.runs[r], r, past);
      RunMoved(w, call, past);
    } else {
      RunFrame(w, call, r);
      if r < |w.runs| {
        assert RunTraced(w.runs[r], r, past);
        RunKept(w.runs[r], r, past, call);
      } else {
        PreparedMore(past, call, Apply(w, call).state.runs[r]);
      }
    }
  }

  lemma NewOkr(w: World, call: Call)
    requires Apply(w, call).Done?
    ensures |Apply(w, call).state.okrs| == |w.okrs| + (if call.op.CreateDraft? then 1 else 0)
  {
    if IsOkrEntry(call.op) {
      OkrEntryFrame(w, call);
    } else if call.op.Prepare? {
      PrepareFrame(w, call.op.okr, call.op.cap, call.op.agreement, call.op.kr, call.op.scheduled, call.op.command,
        call.now);
    }
  }

  lemma StepOkrs(w: World, call: Call, past: seq<Call>)
    requires Traced(w, past) && Apply(w, call).Done?
    ensures OkrsFrom(Apply(w, call).state.okrs, past + [call])
  {
    DraftsMore(past, call);
    NewOkr(w, call);
    forall o | 0 <= o < |Apply(w, call).state.okrs| ensures OkrTraced(Apply(w, call).state.okrs[o], o, past + [call]) {
      OkrsTraced(w, call, past, o);
    }
  }

  lemma StepCaps(w: World, call: Call, past: seq<Call>)
    requires Traced(w, past) && Apply(w, call).Done?
    ensures CapsFrom(Apply(w, call).state.caps, past + [call])
  {
    forall c | 0 <= c < |Apply(w, call).state.caps| ensures CapTraced(Apply(w, call).state.caps[c], c, past + [call]) {
      CapsTraced(w, call, past, c);
    }
  }

  lemma StepRuns(w: World, call: Call, past: seq<Call>)
    requires Inv(w) && Traced(w, past) && Apply(w, call).Done?
    ensures RunsFrom(Apply(w, call).state.runs, past + [call])
  {
    forall r | 0 <= r < |Apply(w, call).state.runs| ensures RunTraced(Apply(w, call).state.runs[r], r, past + [call]) {
      RunsTraced(w, call, past, r);
    }
  }

  function Now(w: World, call: Call): seq<Call> { if Apply(w, call).Done? then [call] else [] }

  lemma StepTraced(w: World, call: Call, past: seq<Call>)
    requires Inv(w) && Traced(w, past)
    ensures Traced(Step(w, call), past + Now(w, call))
  {
    if Apply(w, call).Done? {
      StepOkrs(w, call, past);
      StepCaps(w, call, past);
      StepRuns(w, call, past);
    } else {
      assert past + [] == past;
    }
  }

  lemma LogCons(w: World, calls: seq<Call>, past: seq<Call>)
    requires calls != []
    ensures past + Log(w, calls) == past + Now(w, calls[0]) + Log(Step(w, calls[0]), calls[1..])
  {
    var now, rest := Now(w, calls[0]), Log(Step(w, calls[0]), calls[1..]);
    assert Log(w, calls) == now + rest;
    Associative(past, now, rest);
  }

  lemma {:induction false} ExecuteTraced(w: World, calls: seq<Call>, past: seq<Call>)
    requires Inv(w) && Traced(w, past)
    ensures Traced(Execute(w, calls), past + Log(w, calls))
    decreases |calls|
  {
    if calls == [] {
      assert past + Log(w, calls) == past;
    } else {
      var w', past' := Step(w, calls[0]), past + Now(w, calls[0]);
      StepKeeps(w, calls[0]);
      StepTraced(w, calls[0], past);
      ExecuteTraced(w', calls[1..], past');
      LogCons(w, calls, past);
    }
  }

  // ------------------------------------------------------------ theorems

  lemma TrailOf(calls: seq<Call>)
    ensures Inv(Execute(EMPTY, calls)) && Traced(Execute(EMPTY, calls), Log(EMPTY, calls))
  {
    ExecuteKeeps(EMPTY, calls);
    ExecuteTraced(EMPTY, calls, []);
    assert [] + Log(EMPTY, calls) == Log(EMPTY, calls);
  }

  /** Whatever a reachable ledger shows was said by a committed transaction: criteria by the latest approved
      specification, limit and terms by the latest activation, budgets of capabilities by one activation, commands,
      results and spends of Runs by their preparation and their Host. */
  lemma EverythingIsOnRecord(calls: seq<Call>, o: nat, c: nat, r: nat)
    ensures var w, past := Execute(EMPTY, calls), Log(EMPTY, calls);
      (o < |w.okrs| ==>
        SpecFrom(w.okrs[o], o, past) && PhaseFrom(w.okrs[o], o, past) &&
        (w.okrs[o].limit > 0 ==> TermsFrom(w.okrs[o], o, past))) &&
      (c < |w.caps| ==> CapTraced(w.caps[c], c, past)) && (r < |w.runs| ==> RunTraced(w.runs[r], r, past))
  {
    TrailOf(calls);
    var w, past := Execute(EMPTY, calls), Log(EMPTY, calls);
    assert o < |w.okrs| ==> OkrTraced(w.okrs[o], o, past);
  }

  /** Nothing on record was done without authority: every transaction that committed was authorized. */
  lemma {:induction false} OnlyAuthorizedCommits(w: World, calls: seq<Call>)
    ensures forall j :: 0 <= j < |Log(w, calls)| ==> Log(w, calls)[j].authorized
    decreases |calls|
  {
    if calls != [] {
      OnlyAuthorizedCommits(Step(w, calls[0]), calls[1..]);
    }
  }

  /** A recorded sample is the value a Host reported for that KR from a succeeded Run of it; nothing else is ever
      recorded. */
  lemma SamplesAreReported(calls: seq<Call>, o: nat, i: nat)
    ensures var w := Execute(EMPTY, calls);
      o < |w.okrs| && i < |w.okrs[o].metrics| && w.okrs[o].metrics[i].sample.Some? ==>
        var s := w.okrs[o].metrics[i].sample.value;
        Reported(Log(EMPTY, calls), o, i, s) && Evidence(w.runs, o, i, s)
  {
    TrailOf(calls);
    var w, past := Execute(EMPTY, calls), Log(EMPTY, calls);
    if o < |w.okrs| && i < |w.okrs[o].metrics| {
      assert OkrTraced(w.okrs[o], o, past) && Ordered(w.okrs[o], w.runs, o);
      assert w.okrs[o].metrics[i] == w.okrs[o].metrics[i];
    }
  }

  /** An accepted OKR: a human confirmed it, every KR was verified by a transaction of its own, and for every KR the
      value a Host reported from a succeeded Run of it had reached the target, in the direction away from the
      baseline. */
  lemma AcceptedOnReportedValues(calls: seq<Call>, o: nat, i: nat)
    ensures var w, past := Execute(EMPTY, calls), Log(EMPTY, calls);
      o < |w.okrs| && w.okrs[o].phase.Achieved? && i < |w.okrs[o].metrics| ==>
        var m := w.okrs[o].metrics[i];
        AcceptedBy(past, o) && VerifiedBy(past, o, i) && m.sample.Some? && Reported(past, o, i, m.sample.value) &&
        Evidence(w.runs, o, i, m.sample.value) && m.baseline != m.target &&
        (if m.target > m.baseline then m.sample.value.value >= m.target else m.sample.value.value <= m.target)
  {
    TrailOf(calls);
    AcceptedOnlyWithEvidence(calls, o, i);
    SamplesAreReported(calls, o, i);
    var w, past := Execute(EMPTY, calls), Log(EMPTY, calls);
    if o < |w.okrs| && w.okrs[o].phase.Achieved? && i < |w.okrs[o].metrics| {
      assert OkrTraced(w.okrs[o], o, past);
      assert w.okrs[o].metrics[i] == w.okrs[o].metrics[i];
    }
  }
}
