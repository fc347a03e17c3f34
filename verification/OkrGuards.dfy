/** Exactly when each entry of the OKR contract commits, spelled out for sound ledgers. */
module OkrGuards {
  import opened Common
  import opened OkrProtocol
  import opened OkrTheorems

  /** A draft needs one to three criteria that move somewhere, with a weight, a bounded sample age and a future
      deadline. */
  lemma DraftExactly(w: World, deadline: nat, metrics: seq<Metric>, now: nat)
    ensures Apply(w, Call(CreateDraft(deadline, metrics), true, now)).Done? <==> (
      now < deadline && (|metrics| == 1 || |metrics| == 2 || |metrics| == 3) &&
      forall i :: 0 <= i < |metrics| ==>
        metrics[i].baseline != metrics[i].target && 1 <= metrics[i].weight <= 1_000_000 &&
        1 <= metrics[i].maxAge <= 30 * 24 * 60 * 60 * 1000 && metrics[i].sample.None? && !metrics[i].verified)
  {
  }

  /** Activation: a draft or paused OKR on its current version, a free slot of three, terms inside the deadline, a
      limit that covers what is spent and held, and the old asset once anything was ever claimed. */
  lemma ActivateExactly(w: World, o: nat, version: nat, asset: string, limit: nat, expires: nat,
    maxCalls: Option<nat>, now: nat)
    requires Inv(w) && o < |w.okrs|
    ensures var k := w.okrs[o];
      DoActivate(w, o, version, asset, limit, expires, maxCalls, now).Done? <==> (
        k.version == version && (k.phase.Draft? || k.phase.Paused?) && 1 <= |asset| <= 32 && limit > 0 &&
        now < expires <= k.deadline && Sum(w.okrs, IsActive()) < 3 && k.spent + k.reserved <= limit &&
        (k.asset == asset || (forall r :: 0 <= r < |w.runs| ==> w.runs[r].okr != o)) &&
        (maxCalls.Some? ==> 1 <= maxCalls.value <= 1000 && maxCalls.value <= limit))
  {
    assert Balanced(w, o);
    if forall r :: 0 <= r < |w.runs| ==> w.runs[r].okr != o {
      SumZero(w.runs, HeldBy(o));
      SumZero(w.runs, SpentBy(o));
    }
  }

  /** The rest of the life of an OKR, on its current version: it is paused only while active, respecified only as a
      draft or paused, with a future deadline and good criteria, and archived once. */
  lemma LifeExactly(w: World, o: nat, version: nat, deadline: nat, metrics: seq<Metric>, now: nat)
    requires Inv(w) && o < |w.okrs|
    ensures var k := w.okrs[o];
      (Apply(w, Call(Pause(o, version), true, now)).Done? <==> k.version == version && k.phase.Active?) &&
      (Apply(w, Call(Archive(o, version), true, now)).Done? <==> k.version == version && !k.phase.Archived?) &&
      (Apply(w, Call(ReplaceSpec(o, version, deadline, metrics), true, now)).Done? <==> (
        k.version == version && (k.phase.Draft? || k.phase.Paused?) &&
        Apply(w, Call(CreateDraft(deadline, metrics), true, now)).Done?))
  {
    SumAtLeast(w.okrs, o, IsActive());
  }

  /** A capability: an active OKR with a KR to go, under the call ceiling approved with the present agreement. */
  lemma IssueExactly(w: World, o: nat, version: nat, maxUses: nat, now: nat)
    requires o < |w.okrs|
    ensures var k := w.okrs[o];
      DoIssue(w, o, version, maxUses, now).Done? <==> (
        k.version == version && k.phase.Active? && k.nextKr < |k.metrics| && now < k.expires &&
        k.policy.Some? && k.policy.value.agreement == k.agreement && k.policy.value.maxCalls <= k.limit &&
        1 <= maxUses <= 10_000)
  {
  }

  /** The agreement side of preparing: an active OKR, the present agreement, a KR from the cursor on (the cursor
      itself unless scheduled), a live capability of that agreement within the OKR's terms, and a command of at most
      five minutes that is not from the future. */
  ghost predicate MayPrepare(w: World, o: nat, c: nat, agreement: nat, kr: nat, scheduled: bool, cmd: Command, now: nat)
    requires o < |w.okrs| && c < |w.caps|
  {
    var k, cap := w.okrs[o], w.caps[c];
    k.phase.Active? && now < k.expires && agreement == k.agreement && k.nextKr <= kr < |k.metrics| &&
    (scheduled || kr == k.nextKr) && cap.okr == o && cap.agreement == agreement && cap.asset == k.asset &&
    cap.maxBudget <= k.limit && cap.expires <= k.expires && !cap.revoked && now < cap.expires &&
    cmd.asset == k.asset && cmd.amount > 0 && 0 < cmd.issued < cmd.expires <= cmd.issued + 5 * 60 * 1000 &&
    now < cmd.expires <= cap.expires && cmd.issued <= now + 30 * 1000
  }

  /** A new command commits exactly when the agreement allows it, its identifiers are all unused on the capability,
      and its amount fits both what the OKR and what the capability have left. */
  lemma PrepareExactly(w: World, o: nat, c: nat, agreement: nat, kr: nat, scheduled: bool, cmd: Command, now: nat)
    requires Inv(w) && o < |w.okrs| && c < |w.caps| && cmd.id !in w.caps[c].commands
    ensures var k, cap := w.okrs[o], w.caps[c];
      DoPrepare(w, o, c, agreement, kr, scheduled, cmd, now).Done? <==> (
        MayPrepare(w, o, c, agreement, kr, scheduled, cmd, now) &&
        cmd.key !in cap.keys && cmd.nonce !in cap.nonces && cmd.intent !in cap.intents &&
        k.spent + k.reserved + cmd.amount <= k.limit && cap.spent + cap.reserved + cmd.amount <= cap.maxBudget &&
        (cap.maxUses > 0 ==> cap.uses < cap.maxUses))
  {
    assert Balanced(w, o) && CapInv(w, c) && Ordered(w.okrs[o], w.runs, o);
  }

  /** A start: the KR at the cursor, the present agreement, an unexpired queued Run nobody stopped, on its unchanged
      live capability. */
  lemma BeginExactly(w: World, r: nat, now: nat)
    requires Inv(w) && r < |w.runs|
    ensures var run := w.runs[r];
      run.okr < |w.okrs| && run.cap < |w.caps| &&
      var k, cap := w.okrs[run.okr], w.caps[run.cap];
      DoBegin(w, r, now).Done? <==> (
        k.phase.Active? && now < k.expires && k.nextKr < |k.metrics| && run.kr == k.nextKr &&
          run.agreement == k.agreement &&
        run.state.Queued? && now < run.command.expires && cap.revision == run.capRevision && !cap.revoked &&
          now < cap.expires &&
        cap.asset == k.asset && cap.maxBudget <= k.limit && cap.expires <= k.expires)
  {
    assert RunInv(w, r);
    assert Ordered(w.okrs[w.runs[r].okr], w.runs, w.runs[r].okr);
  }

  /** Exactly when a Host may report a value: on the current version and agreement, for the KR at the cursor, with a
      succeeded Run of that KR prepared under this activation, sampled after that and recently enough, and not before
      the sample it replaces. */
  lemma ObserveExactly(w: World, o: nat, r: nat, version: nat, agreement: nat, kr: nat, value: nat, at: nat, now: nat)
    requires Inv(w) && o < |w.okrs| && r < |w.runs|
    ensures var k, run := w.okrs[o], w.runs[r];
      run.cap < |w.caps| &&
      (DoObserve(w, o, r, version, agreement, kr, value, at, now).Done? <==> (
        k.version == version && k.agreement == agreement && k.phase.Active? && now < k.expires &&
        kr == k.nextKr && kr < |k.metrics| && run.okr == o && run.agreement == agreement && run.kr == kr &&
        run.state.Succeeded? && k.activatedAt <= run.created <= at <= now && now <= at + k.metrics[kr].maxAge &&
        (k.metrics[kr].sample.Some? ==> k.metrics[kr].sample.value.at <= at) &&
        w.caps[run.cap].asset == k.asset && w.caps[run.cap].maxBudget <= k.limit &&
          w.caps[run.cap].expires <= k.expires))
  {
    assert RunInv(w, r);
    assert Ordered(w.okrs[o], w.runs, o);
  }

  /** The value was sampled recently and has reached the target, in the direction away from the baseline. */
  ghost predicate Reached(m: Metric, now: nat) {
    m.sample.Some? && m.sample.value.at <= now <= m.sample.value.at + m.maxAge &&
    ((m.baseline < m.target <= m.sample.value.value) || (m.sample.value.value <= m.target < m.baseline))
  }

  /** Exactly when a human may verify: the KR at the cursor has reached its target. */
  lemma VerifyExactly(w: World, o: nat, version: nat, kr: nat, now: nat)
    requires o < |w.okrs|
    ensures var k := w.okrs[o];
      DoVerify(w, o, version, kr, now).Done? <==> (
        k.version == version && k.phase.Active? && kr == k.nextKr && kr < |k.metrics| && Reached(k.metrics[kr], now))
  {
  }

  /** Exactly when a human may accept: the cursor has passed every KR and every one of them still holds. */
  lemma AchieveExactly(w: World, o: nat, version: nat, confirmed: bool, now: nat)
    requires Inv(w) && o < |w.okrs|
    ensures var k := w.okrs[o];
      DoAchieve(w, o, version, confirmed, now).Done? <==> (
        k.version == version && k.phase.Active? && confirmed && k.nextKr == |k.metrics| &&
        forall i :: 0 <= i < |k.metrics| ==> Reached(k.metrics[i], now))
  {
    assert Ordered(w.okrs[o], w.runs, o);
    SumAtLeast(w.okrs, o, IsActive());
    if forall i :: 0 <= i < |w.okrs[o].metrics| ==> Reached(w.okrs[o].metrics[i], now) {
      assert forall i :: 0 <= i < |w.okrs[o].metrics| ==> Measured(w.okrs[o].metrics[i], now);
    }
  }
}
