/**
 * The contract is not only safe but usable: an active OKR with a call ceiling and budget left can always have its next
 * KR carried out, reported and verified, by six transactions that all commit.
 */
module OkrCompletion {
  import opened Common
  import opened OkrProtocol
  import opened OkrTheorems
  import opened OkrGuards
  import OkrResults

  /** The OKR is active with a KR to go, and its agreement carries a call ceiling. */
  ghost predicate Open(w: World, o: nat, now: nat) {
    o < |w.okrs| && var k := w.okrs[o];
    k.phase.Active? && k.nextKr < |k.metrics| && now < k.expires && k.activatedAt <= now &&
    k.policy.Some? && k.policy.value.agreement == k.agreement && k.policy.value.maxCalls <= k.limit &&
    (k.metrics[k.nextKr].sample.Some? ==> k.metrics[k.nextKr].sample.value.at <= now)
  }

  /** The command fits the OKR, its ceiling and what is left of its limit, and its result name is free. */
  ghost predicate Fits(w: World, o: nat, cmd: Command, now: nat)
    requires Open(w, o, now)
  {
    var k := w.okrs[o];
    cmd.asset == k.asset && 0 < cmd.amount <= k.policy.value.maxCalls && k.spent + k.reserved + cmd.amount <= k.limit &&
    0 < cmd.issued <= now < cmd.expires <= cmd.issued + 5 * 60 * 1000 && cmd.expires <= k.expires &&
    cmd.intent !in w.results
  }

  /** The value reaches the target of the KR at the cursor. */
  ghost predicate Meets(m: Metric, value: nat) {
    (m.baseline < m.target <= value) || (value <= m.target < m.baseline)
  }

  function At(op: Op, now: nat): Call { Call(op, true, now) }

  lemma Issues(w: World, o: nat, cmd: Command, now: nat)
    requires Inv(w) && Open(w, o, now) && Fits(w, o, cmd, now)
    ensures var issue := At(IssueCapability(o, w.okrs[o].version, 1), now);
      var w' := Step(w, issue);
      var k, c := w.okrs[o], |w.caps|;
      Apply(w, issue).Done? && w'.okrs == w.okrs && w'.runs == w.runs && w'.results == w.results &&
      |w'.caps| == c + 1 && cmd.id !in w'.caps[c].commands &&
      DoPrepare(w', o, c, k.agreement, k.nextKr, false, cmd, now).Done?
  {
    var issue := At(IssueCapability(o, w.okrs[o].version, 1), now);
    StepKeeps(w, issue);
    PrepareExactly(Step(w, issue), o, |w.caps|, w.okrs[o].agreement, w.okrs[o].nextKr, false, cmd, now);
  }

  /** A Run just prepared for the KR at the cursor. */
  ghost predicate Ready(w: World, o: nat, r: nat, cmd: Command, now: nat) {
    Open(w, o, now) && r < |w.runs| && var run := w.runs[r];
    run.okr == o && run.kr == w.okrs[o].nextKr && run.agreement == w.okrs[o].agreement && run.created == now &&
    run.command == cmd && run.state.Queued? && !run.stop && run.cursor == 1 && now < cmd.expires &&
    run.cap < |w.caps| && var k, cap := w.okrs[o], w.caps[run.cap];
    cap.revision == run.capRevision && !cap.revoked && now < cap.expires <= k.expires && cap.asset == k.asset &&
    cap.maxBudget <= k.limit
  }

  lemma Prepares(w: World, o: nat, c: nat, cmd: Command, now: nat)
    requires Inv(w) && Open(w, o, now) && c < |w.caps| && cmd.id !in w.caps[c].commands
    requires DoPrepare(w, o, c, w.okrs[o].agreement, w.okrs[o].nextKr, false, cmd, now).Done?
    ensures var k := w.okrs[o];
      var w' := Step(w, At(Prepare(o, c, k.agreement, k.nextKr, false, cmd), now));
      Ready(w', o, |w.runs|, cmd, now) && w'.results == w.results && w'.okrs[o] == k.(reserved := w'.okrs[o].reserved)
  {
    var k := w.okrs[o];
    PrepareExactly(w, o, c, k.agreement, k.nextKr, false, cmd, now);
    PrepareFrame(w, o, c, k.agreement, k.nextKr, false, cmd, now);
  }

  lemma Begins(w: World, o: nat, r: nat, cmd: Command, now: nat)
    requires Inv(w) && Ready(w, o, r, cmd, now)
    ensures var w' := Step(w, At(Begin(r), now));
      Apply(w, At(Begin(r), now)).Done? &&
      w' == w.(runs := w.runs[r := w.runs[r].(state := Running, cursor := 2)])
  {
    BeginExactly(w, r, now);
  }

  /** A started Run of the KR at the cursor, on a capability still inside the OKR's terms. */
  ghost predicate Underway(w: World, o: nat, r: nat, state: RunState, now: nat) {
    Open(w, o, now) && r < |w.runs| && var run := w.runs[r];
    run.okr == o && run.kr == w.okrs[o].nextKr && run.agreement == w.okrs[o].agreement && run.created == now &&
    run.state == state && run.cap < |w.caps| && var k, cap := w.okrs[o], w.caps[run.cap];
    cap.expires <= k.expires && cap.asset == k.asset && cap.maxBudget <= k.limit
  }

  lemma Succeeds(w: World, o: nat, r: nat, spent: nat, now: nat)
    requires Inv(w) && Underway(w, o, r, Running, now) && w.runs[r].cursor == 2
    requires spent <= w.runs[r].command.amount && w.runs[r].command.intent !in w.results
    ensures var finish := At(Finish(r, Succeeded, 2, spent), now);
      var w' := Step(w, finish);
      Apply(w, finish).Done? && Underway(w', o, r, Succeeded, now) &&
      w'.okrs[o] == w.okrs[o].(reserved := w'.okrs[o].reserved, spent := w'.okrs[o].spent)
  {
    FinishExactly(w, r, Succeeded, 2, spent);
  }

  lemma Verifies(w: World, o: nat, r: nat, value: nat, now: nat)
    requires Inv(w) && Underway(w, o, r, Succeeded, now) && Meets(w.okrs[o].metrics[w.okrs[o].nextKr], value)
    ensures var k := w.okrs[o];
      var observe := At(Observe(o, r, k.version, k.agreement, k.nextKr, value, now), now);
      var verify := At(Verify(o, k.version + 1, k.nextKr), now);
      var w' := Step(Step(w, observe), verify);
      o < |w'.okrs| && w'.okrs[o].nextKr == k.nextKr + 1 && k.nextKr < |w'.okrs[o].metrics| &&
      w'.okrs[o].metrics[k.nextKr].verified && w'.okrs[o].metrics[k.nextKr].sample == Some(Sample(value, now, r))
  {
    var k := w.okrs[o];
    ObserveExactly(w, o, r, k.version, k.agreement, k.nextKr, value, now, now);
    var w1 := Step(w, At(Observe(o, r, k.version, k.agreement, k.nextKr, value, now), now));
    VerifyExactly(w1, o, k.version + 1, k.nextKr, now);
  }

  lemma ExecuteCons(w: World, call: Call, rest: seq<Call>)
    ensures Execute(w, [call] + rest) == Execute(Step(w, call), rest)
  {
    assert ([call] + rest)[1..] == rest;
  }

  /** Issue, prepare and begin, leaving a running Run of the KR at the cursor. */
  lemma Starts(w: World, o: nat, cmd: Command, now: nat) returns (calls: seq<Call>)
    requires Inv(w) && Open(w, o, now) && Fits(w, o, cmd, now)
    ensures var w', r := Execute(w, calls), |w.runs|;
      Inv(w') && Underway(w', o, r, Running, now) && w'.runs[r].cursor == 2 && w'.runs[r].command == cmd &&
      w'.results == w.results && w'.okrs[o] == w.okrs[o].(reserved := w'.okrs[o].reserved)
  {
    var k, c, r := w.okrs[o], |w.caps|, |w.runs|;
    var issue, begin := At(IssueCapability(o, k.version, 1), now), At(Begin(r), now);
    var prepare := At(Prepare(o, c, k.agreement, k.nextKr, false, cmd), now);
    StepKeeps(w, issue);
    Issues(w, o, cmd, now);
    var w1 := Step(w, issue);
    StepKeeps(w1, prepare);
    Prepares(w1, o, c, cmd, now);
    var w2 := Step(w1, prepare);
    StepKeeps(w2, begin);
    Begins(w2, o, r, cmd, now);
    ExecuteCons(w2, begin, []);
    ExecuteCons(w1, prepare, [begin] + []);
    ExecuteCons(w, issue, [prepare] + ([begin] + []));
    calls := [issue] + ([prepare] + ([begin] + []));
  }

  /** Finish, observe and verify. */
  lemma Ends(w: World, o: nat, r: nat, spent: nat, value: nat, now: nat) returns (calls: seq<Call>)
    requires Inv(w) && Underway(w, o, r, Running, now) && w.runs[r].cursor == 2
    requires spent <= w.runs[r].command.amount && w.runs[r].command.intent !in w.results
    requires Meets(w.okrs[o].metrics[w.okrs[o].nextKr], value)
    ensures var w', kr := Execute(w, calls), w.okrs[o].nextKr;
      o < |w'.okrs| && w'.okrs[o].nextKr == kr + 1 && kr < |w'.okrs[o].metrics| && w'.okrs[o].metrics[kr].verified &&
      w'.okrs[o].metrics[kr].sample == Some(Sample(value, now, r))
  {
    var k := w.okrs[o];
    var finish := At(Finish(r, Succeeded, 2, spent), now);
    var observe := At(Observe(o, r, k.version, k.agreement, k.nextKr, value, now), now);
    var verify := At(Verify(o, k.version + 1, k.nextKr), now);
    Succeeds(w, o, r, spent, now);
    StepKeeps(w, finish);
    var w1 := Step(w, finish);
    Verifies(w1, o, r, value, now);
    var w2 := Step(w1, observe);
    ExecuteCons(w2, verify, []);
    ExecuteCons(w1, observe, [verify] + []);
    ExecuteCons(w, finish, [observe] + ([verify] + []));
    calls := [finish] + ([observe] + ([verify] + []));
  }

  /** From every sound ledger, an active OKR with a call ceiling can have its next KR carried out by any fitting
      command, at any reported spend inside it, and verified with any value that reaches its target. */
  lemma NextKrCanBeVerified(w: World, o: nat, cmd: Command, spent: nat, value: nat, now: nat)
    returns (calls: seq<Call>)
    requires Inv(w) && Open(w, o, now) && Fits(w, o, cmd, now) && spent <= cmd.amount
    requires Meets(w.okrs[o].metrics[w.okrs[o].nextKr], value)
    ensures var w', kr := Execute(w, calls), w.okrs[o].nextKr;
      o < |w'.okrs| && w'.okrs[o].nextKr == kr + 1 && kr < |w'.okrs[o].metrics| && w'.okrs[o].metrics[kr].verified &&
      w'.okrs[o].metrics[kr].sample == Some(Sample(value, now, |w.runs|))
  {
    var first := Starts(w, o, cmd, now);
    var second := Ends(Execute(w, first), o, |w.runs|, spent, value, now);
    OkrResults.ExecuteSplit(w, first, second);
    calls := first + second;
  }
}
