/**
 * The OKR contract, the capabilities it issues and the Runs they pay for.
 *
 * A transaction commits or aborts as a whole, so every entry is a function from the
 * ledger to the next ledger or to `Abort`. `authorized` stands for the identity, host,
 * membership and instance guards of the entry; everything proved below holds for
 * either answer. A Run is keyed by its index, which stands for its fresh object id.
 */
module OkrProtocol {
  import opened Common

  datatype Phase = Draft | Active | Paused | Achieved | Archived
  datatype Sample = Sample(value: nat, at: nat, run: nat)
  datatype Metric = Metric(
    baseline: nat, target: nat, weight: nat, maxAge: nat,
    sample: Option<Sample>, verified: bool)
  /** Handover policy: the agreement it was approved for and its call ceiling. */
  datatype Policy = Policy(agreement: nat, maxCalls: nat)
  datatype Okr = Okr(
    phase: Phase, version: nat, agreement: nat, deadline: nat,
    metrics: seq<Metric>, nextKr: nat,
    asset: string, limit: nat, expires: nat, activatedAt: nat,
    spent: nat, reserved: nat, policy: Option<Policy>)
  /** A capability with its own budget ledger and replay indexes. */
  datatype Cap = Cap(
    okr: nat, agreement: nat, asset: string,
    maxUses: nat, uses: nat, maxBudget: nat,
    claimed: nat, spent: nat, reserved: nat,
    expires: nat, revoked: bool, revision: nat,
    intents: map<nat, nat>, commands: map<nat, nat>, nonces: map<nat, nat>, keys: map<nat, nat>)
  datatype RunState = Queued | Running | Succeeded | Failed | NeedsConfirmation | Cancelled
  datatype Claim = Claim(reserved: nat, spent: nat, settled: bool)
  /** A signed command; `intent` is the hash of its whole content. */
  datatype Command = Command(
    intent: nat, id: nat, nonce: nat, key: nat, asset: string, amount: nat, issued: nat, expires: nat)
  /** A Run together with its row in the OKR ledger and its row in the capability ledger. */
  datatype Run = Run(
    okr: nat, cap: nat, capRevision: nat, agreement: nat, kr: nat, command: Command,
    created: nat, state: RunState, stop: bool, cursor: nat,
    okrClaim: Claim, capClaim: Claim)
  /** `results` are the intents under whose name the organization already holds a result record. */
  datatype World = World(okrs: seq<Okr>, caps: seq<Cap>, runs: seq<Run>, active: nat, results: set<nat>)

  const MAX_ACTIVE := 3
  const MAX_COMMAND_MS := 300000
  const CLOCK_SKEW_MS := 30000
  const EMPTY := World([], [], [], 0, {})

  datatype Op =
    | CreateDraft(deadline: nat, metrics: seq<Metric>)
    | Activate(okr: nat, version: nat, asset: string, limit: nat, expires: nat, maxCalls: Option<nat>)
    | Pause(okr: nat, version: nat)
    | ReplaceSpec(okr: nat, version: nat, deadline: nat, metrics: seq<Metric>)
    | Verify(okr: nat, version: nat, kr: nat)
    | Achieve(okr: nat, version: nat, confirmed: bool)
    | Archive(okr: nat, version: nat)
    | IssueCapability(okr: nat, version: nat, maxUses: nat)
    | RevokeCapability(cap: nat)
    | Prepare(okr: nat, cap: nat, agreement: nat, kr: nat, scheduled: bool, command: Command)
    | Begin(run: nat)
    | Finish(run: nat, final: RunState, cursor: nat, spent: nat)
    | RequestStop(run: nat)
    | SaveRecord(intent: nat)
    | Observe(okr: nat, run: nat, version: nat, agreement: nat, kr: nat, value: nat, sampledAt: nat)

  datatype Call = Call(op: Op, authorized: bool, now: nat)

  // ---------------------------------------------------------------- metrics

  /** A fresh, well-formed list of one to three measurable criteria. */
  predicate ValidMetrics(metrics: seq<Metric>) {
    1 <= |metrics| <= 3 &&
    forall i :: 0 <= i < |metrics| ==>
      var m := metrics[i];
      m.baseline != m.target && 0 < m.weight <= 1000000 && 0 < m.maxAge <= 2592000000 &&
      m.sample == None && !m.verified
  }

  predicate TargetMet(m: Metric) {
    m.sample.Some? &&
    ((m.target > m.baseline && m.sample.value.value >= m.target) ||
     (m.target < m.baseline && m.sample.value.value <= m.target))
  }

  predicate Measured(m: Metric, now: nat) {
    m.sample.Some? && m.sample.value.at <= now && now - m.sample.value.at <= m.maxAge && TargetMet(m)
  }

  // ---------------------------------------------------------------- entries

  function SetOkr(w: World, o: nat, k: Okr): World
    requires o < |w.okrs|
  {
    w.(okrs := w.okrs[o := k])
  }

  /** Every committed change of an OKR advances its version. */
  function Changed(k: Okr): Okr {
    k.(version := k.version + 1)
  }

  predicate Current(w: World, o: nat, version: nat) {
    o < |w.okrs| && w.okrs[o].version == version
  }

  predicate HasClaims(w: World, o: nat) {
    exists r :: 0 <= r < |w.runs| && w.runs[r].okr == o
  }

  function DoActivate(w: World, o: nat, version: nat, asset: string, limit: nat, expires: nat, maxCalls: Option<nat>,
    now: nat): Commit<World> {
    if !Current(w, o, version) then Abort else
    var k := w.okrs[o];
    if !(k.phase.Draft? || k.phase.Paused?) then Abort else
    if !(0 < |asset| <= 32 && limit > 0 && now < expires <= k.deadline) then Abort else
    if w.active >= MAX_ACTIVE then Abort else
    if !((k.asset == asset || (k.spent == 0 && k.reserved == 0 && !HasClaims(w, o)))
         && k.spent <= limit && k.reserved <= limit - k.spent) then Abort else
    if maxCalls.Some? && !(0 < maxCalls.value <= 1000 && maxCalls.value <= limit) then Abort else
    var policy := if maxCalls.Some? then Some(Policy(k.agreement + 1, maxCalls.value)) else k.policy;
    Done(SetOkr(w, o, Changed(k.(
      phase := Active, agreement := k.agreement + 1, asset := asset, limit := limit,
      expires := expires, activatedAt := now, policy := policy))).(active := w.active + 1))
  }

  /** Leaving the Active phase releases the organization slot and starts a new agreement version. */
  function Leave(w: World, o: nat, phase: Phase): Commit<World>
    requires o < |w.okrs|
  {
    var k := w.okrs[o];
    if k.phase.Active? && w.active == 0 then Abort else
    Done(SetOkr(w, o, Changed(k.(phase := phase, agreement := k.agreement + 1)))
         .(active := if k.phase.Active? then w.active - 1 else w.active))
  }

  function DoReplaceSpec(w: World, o: nat, version: nat, deadline: nat, metrics: seq<Metric>, now: nat): Commit<World> {
    if !Current(w, o, version) then Abort else
    var k := w.okrs[o];
    if !(k.phase.Draft? || k.phase.Paused?) || deadline <= now || !ValidMetrics(metrics) then Abort else
    Done(SetOkr(w, o, Changed(k.(deadline := deadline, metrics := metrics, nextKr := 0, agreement := k.agreement + 1))))
  }

  function DoVerify(w: World, o: nat, version: nat, kr: nat, now: nat): Commit<World> {
    if !Current(w, o, version) then Abort else
    var k := w.okrs[o];
    if !k.phase.Active? || kr != k.nextKr || kr >= |k.metrics| || !Measured(k.metrics[kr], now) then Abort else
    Done(SetOkr(w, o, Changed(k.(metrics := k.metrics[kr := k.metrics[kr].(verified := true)],
      nextKr := k.nextKr + 1))))
  }

  function DoAchieve(w: World, o: nat, version: nat, confirmed: bool, now: nat): Commit<World> {
    if !Current(w, o, version) then Abort else
    var k := w.okrs[o];
    if !k.phase.Active? || !confirmed || k.nextKr != |k.metrics| then Abort else
    if exists i :: 0 <= i < |k.metrics| && !(k.metrics[i].verified && Measured(k.metrics[i], now)) then Abort else
    Leave(w, o, Achieved)
  }

  /** The agreement, time and capability limits under which a KR may be prepared, started or observed. */
  predicate Witness(w: World, o: nat, c: nat, kr: nat, now: nat)
    requires o < |w.okrs| && c < |w.caps|
  {
    var k, cap := w.okrs[o], w.caps[c];
    k.phase.Active? && now < k.expires && k.nextKr <= kr < |k.metrics| &&
    cap.asset == k.asset && cap.maxBudget <= k.limit && cap.expires <= k.expires &&
    cap.okr == o && cap.agreement == k.agreement && kr < 3
  }

  function DoIssue(w: World, o: nat, version: nat, maxUses: nat, now: nat): Commit<World> {
    if !Current(w, o, version) then Abort else
    var k := w.okrs[o];
    if !k.phase.Active? || k.nextKr >= |k.metrics| || k.policy.None? ||
      k.policy.value.agreement != k.agreement then Abort else
    if !(0 < maxUses <= 10000) || now >= k.expires || k.policy.value.maxCalls > k.limit then Abort else
    Done(w.(caps := w.caps + [Cap(o, k.agreement, k.asset, maxUses, 0, k.policy.value.maxCalls, 0, 0, 0, k.expires,
      false, 1, map[], map[], map[], map[])]))
  }

  predicate Maps(m: map<nat, nat>, k: nat, v: nat) { k in m && m[k] == v }

  /** The recorded claim carries the same identifiers, asset and amount. */
  predicate SameClaim(run: Run, cmd: Command) {
    run.command.intent == cmd.intent && run.command.id == cmd.id && run.command.nonce == cmd.nonce &&
      run.command.key == cmd.key &&
    run.command.asset == cmd.asset && run.command.amount == cmd.amount && run.okrClaim.reserved == cmd.amount
  }

  /** Reserve one use and the command's budget on the capability. */
  function Claimed(cap: Cap, cmd: Command, run: nat): Cap {
    cap.(uses := if cap.maxUses > 0 then cap.uses + 1 else cap.uses,
         claimed := cap.claimed + cmd.amount, reserved := cap.reserved + cmd.amount,
         intents := cap.intents[cmd.intent := run], commands := cap.commands[cmd.id := cmd.intent],
         nonces := cap.nonces[cmd.nonce := cmd.intent], keys := cap.keys[cmd.key := cmd.intent])
  }

  /** A new Run with its claim in both ledgers. */
  function Reserve(w: World, o: nat, c: nat, agreement: nat, kr: nat, cmd: Command, now: nat): World
    requires o < |w.okrs| && c < |w.caps|
  {
    var row := Claim(cmd.amount, 0, false);
    var run := Run(o, c, w.caps[c].revision, agreement, kr, cmd, now, Queued, false, 1, row, row);
    SetOkr(w, o, w.okrs[o].(reserved := w.okrs[o].reserved + cmd.amount)).(
      caps := w.caps[c := Claimed(w.caps[c], cmd, |w.runs|)], runs := w.runs + [run])
  }

  function DoPrepare(w: World, o: nat, c: nat, agreement: nat, kr: nat, scheduled: bool, cmd: Command,
    now: nat): Commit<World> {
    if o >= |w.okrs| || c >= |w.caps| then Abort else
    var k, cap := w.okrs[o], w.caps[c];
    if agreement != k.agreement || (!scheduled && kr != k.nextKr) || !Witness(w, o, c, kr, now) then Abort else
    if cmd.asset != k.asset || cmd.amount == 0 then Abort else
    var known := cmd.intent in cap.intents && cap.intents[cmd.intent] < |w.runs|;
    var existed := known && w.runs[cap.intents[cmd.intent]].okr == o;
    if !existed && !(k.spent <= k.limit && k.reserved <= k.limit - k.spent &&
      cmd.amount <= k.limit - k.spent - k.reserved) then Abort else
    // The command binding recorded on the capability never changes.
    if known && !(w.runs[cap.intents[cmd.intent]].agreement == agreement && w.runs[cap.intents[cmd.intent]].kr == kr)
      then Abort else
    if !(cmd.issued > 0 && cmd.issued < cmd.expires <= cmd.issued + MAX_COMMAND_MS) then Abort else
    if !(now < cmd.expires && cmd.issued <= now + CLOCK_SKEW_MS && cmd.expires <= cap.expires) then Abort else
    if cap.revoked || now >= cap.expires then Abort else
    if cmd.id in cap.commands then
      // A replay must repeat the original command exactly, and then changes nothing.
      if existed && cap.commands[cmd.id] == cmd.intent && Maps(cap.nonces, cmd.nonce, cmd.intent) &&
        Maps(cap.keys, cmd.key, cmd.intent)
         && SameClaim(w.runs[cap.intents[cmd.intent]], cmd) then Done(w) else Abort
    else
    if cmd.key in cap.keys || cmd.nonce in cap.nonces || cmd.intent in cap.intents then Abort else
    if cap.maxUses > 0 && cap.uses >= cap.maxUses then Abort else
    if cap.maxBudget == 0 || cap.claimed + cmd.amount > cap.maxBudget then Abort else
    var cap' := Claimed(cap, cmd, |w.runs|);
    if cap'.spent + cap'.reserved != cap'.claimed then Abort else
    Done(Reserve(w, o, c, agreement, kr, cmd, now))
  }

  function DoBegin(w: World, r: nat, now: nat): Commit<World> {
    if r >= |w.runs| || w.runs[r].okr >= |w.okrs| || w.runs[r].cap >= |w.caps| then Abort else
    var run := w.runs[r];
    var k, cap := w.okrs[run.okr], w.caps[run.cap];
    if !Witness(w, run.okr, run.cap, k.nextKr, now) then Abort else
    if run.okrClaim.settled || run.agreement != k.agreement || run.kr != k.nextKr then Abort else
    if !run.state.Queued? || run.stop || now >= run.command.expires then Abort else
    if cap.revision != run.capRevision || cap.revoked || now >= cap.expires then Abort else
    Done(w.(runs := w.runs[r := run.(state := Running, cursor := run.cursor + 1)]))
  }

  function Close(claim: Claim, spent: nat): Claim {
    Claim(claim.reserved, spent, true)
  }

  /** Move a Run's reservation to spending in the capability ledger and in the OKR ledger. */
  function Settle(w: World, r: nat, spent: nat, state: RunState, stop: bool): Commit<World>
    requires r < |w.runs| && w.runs[r].okr < |w.okrs| && w.runs[r].cap < |w.caps|
  {
    var run := w.runs[r];
    var k, cap := w.okrs[run.okr], w.caps[run.cap];
    if spent > run.capClaim.reserved || run.capClaim.settled then Abort else
    if cap.reserved < run.capClaim.reserved || cap.claimed < run.capClaim.reserved then Abort else
    var cap' := cap.(reserved := cap.reserved - run.capClaim.reserved, spent := cap.spent + spent,
                     claimed := cap.claimed - run.capClaim.reserved + spent);
    if cap'.spent + cap'.reserved != cap'.claimed then Abort else
    if run.okrClaim.settled || spent > run.okrClaim.reserved || k.reserved < run.okrClaim.reserved then Abort else
    Done(SetOkr(w, run.okr, k.(reserved := k.reserved - run.okrClaim.reserved, spent := k.spent + spent)).(
      caps := w.caps[run.cap := cap'],
      runs := w.runs[r := run.(state := state, stop := stop, cursor := run.cursor + 1,
                               okrClaim := Close(run.okrClaim, spent), capClaim := Close(run.capClaim, spent))]))
  }

  function DoFinish(w: World, r: nat, final: RunState, cursor: nat, spent: nat): Commit<World> {
    if r >= |w.runs| || w.runs[r].okr >= |w.okrs| || w.runs[r].cap >= |w.caps| then Abort else
    var run := w.runs[r];
    if run.okrClaim.settled || run.okrClaim.reserved != run.command.amount
       || w.okrs[run.okr].asset != run.command.asset || spent > run.okrClaim.reserved then Abort else
    if !run.state.Running? || run.cursor != cursor then Abort else
    // The result is a first revision under a name made of the intent alone.
    if run.command.intent in w.results then Abort else
    var w' := w.(results := w.results + {run.command.intent});
    match final
    case Succeeded | Failed => Settle(w', r, spent, final, run.stop)
    case Cancelled => if run.stop then Settle(w', r, spent, final, run.stop) else Abort
    case NeedsConfirmation =>
      // Unknown side effects keep their whole reservation.
      if spent != 0 then Abort else Done(w'.(runs := w.runs[r := run.(state := final, cursor := run.cursor + 1)]))
    case Queued | Running => Abort
  }

  function DoRequestStop(w: World, r: nat): Commit<World> {
    if r >= |w.runs| || w.runs[r].okr >= |w.okrs| || w.runs[r].cap >= |w.caps| then Abort else
    var run := w.runs[r];
    if run.state.Queued? then (if run.stop then Abort else Settle(w, r, 0, Cancelled, true))
    else if !run.state.Running? then Abort
    else if run.stop then Done(w)
    else Done(w.(runs := w.runs[r := run.(stop := true, cursor := run.cursor + 1)]))
  }

  function DoObserve(w: World, o: nat, r: nat, version: nat, agreement: nat, kr: nat, value: nat, sampledAt: nat,
    now: nat): Commit<World> {
    if !Current(w, o, version) || r >= |w.runs| || w.runs[r].cap >= |w.caps| then Abort else
    var k, run := w.okrs[o], w.runs[r];
    if k.agreement != agreement || kr != k.nextKr || !Witness(w, o, run.cap, kr, now) then Abort else
    if run.okr != o || run.agreement != agreement || run.kr != kr || !run.state.Succeeded? ||
      run.created < k.activatedAt then Abort else
    var m := k.metrics[kr];
    if !(run.created <= sampledAt <= now && now - sampledAt <= m.maxAge &&
      (m.sample.Some? ==> m.sample.value.at <= sampledAt)) then Abort else
    Done(SetOkr(w, o, Changed(k.(metrics := k.metrics[kr := m.(sample := Some(Sample(value, sampledAt, r)),
      verified := false)]))))
  }

  /** One transaction. */
  function Apply(w: World, call: Call): Commit<World> {
    if !call.authorized then Abort else
    match call.op
    case CreateDraft(deadline, metrics) =>
      if deadline <= call.now || !ValidMetrics(metrics) then Abort
      else Done(w.(okrs := w.okrs + [Okr(Draft, 1, 0, deadline, metrics, 0, "", 0, 0, 0, 0, 0, None)]))
    case Activate(o, version, asset, limit, expires, maxCalls) => DoActivate(w, o, version, asset, limit, expires,
      maxCalls, call.now)
    case Pause(o, version) =>
      if Current(w, o, version) && w.okrs[o].phase.Active? then Leave(w, o, Paused) else Abort
    case ReplaceSpec(o, version, deadline, metrics) => DoReplaceSpec(w, o, version, deadline, metrics, call.now)
    case Verify(o, version, kr) => DoVerify(w, o, version, kr, call.now)
    case Achieve(o, version, confirmed) => DoAchieve(w, o, version, confirmed, call.now)
    case Archive(o, version) =>
      if Current(w, o, version) && !w.okrs[o].phase.Archived? then Leave(w, o, Archived) else Abort
    case IssueCapability(o, version, maxUses) => DoIssue(w, o, version, maxUses, call.now)
    case RevokeCapability(c) =>
      if c < |w.caps| && !w.caps[c].revoked
      then Done(w.(caps := w.caps[c := w.caps[c].(revoked := true, revision := w.caps[c].revision + 1)])) else Abort
    case Prepare(o, c, agreement, kr, scheduled, cmd) => DoPrepare(w, o, c, agreement, kr, scheduled, cmd, call.now)
    case Begin(r) => DoBegin(w, r, call.now)
    case Finish(r, final, cursor, spent) => DoFinish(w, r, final, cursor, spent)
    case RequestStop(r) => DoRequestStop(w, r)
    // Any other writer of the organization may take the name of a result.
    case SaveRecord(intent) => Done(w.(results := w.results + {intent}))
    case Observe(o, r, version, agreement, kr, value, sampledAt) => DoObserve(w, o, r, version, agreement, kr, value,
      sampledAt, call.now)
  }

  /** An aborted transaction leaves the ledger as it was. */
  function Step(w: World, call: Call): World {
    match Apply(w, call)
    case Done(w') => w'
    case Abort => w
  }

  function Execute(w: World, calls: seq<Call>): World
    decreases |calls|
  {
    if calls == [] then w else Execute(Step(w, calls[0]), calls[1..])
  }

  // -------------------------------------------------------------- invariant

  ghost function HeldBy(o: nat): Run -> nat { (r: Run) => if r.okr == o &&
    !r.okrClaim.settled then r.okrClaim.reserved else 0 }
  ghost function SpentBy(o: nat): Run -> nat { (r: Run) => if r.okr == o && r.okrClaim.settled then r.okrClaim.spent
    else 0 }
  ghost function CapHeld(c: nat): Run -> nat { (r: Run) => if r.cap == c &&
    !r.capClaim.settled then r.capClaim.reserved else 0 }
  ghost function CapSpent(c: nat): Run -> nat { (r: Run) => if r.cap == c && r.capClaim.settled then r.capClaim.spent
    else 0 }
  ghost function IsActive(): Okr -> nat { (k: Okr) => if k.phase.Active? then 1 else 0 }

  predicate Final(s: RunState) { s.Succeeded? || s.Failed? || s.Cancelled? }

  /** Certainly started: a cancelled Run may have been stopped while still queued. */
  predicate Started(s: RunState) { s.Running? || s.Succeeded? || s.Failed? || s.NeedsConfirmation? }

  /** Both ledger totals are sums over the OKR's own claims and stay inside the limit. */
  ghost predicate Balanced(w: World, o: nat)
    requires o < |w.okrs|
  {
    var k := w.okrs[o];
    k.reserved == Sum(w.runs, HeldBy(o)) && k.spent == Sum(w.runs, SpentBy(o)) && k.spent + k.reserved <= k.limit
  }

  /** A succeeded Run of this very KR, prepared no later than the sample it supports. */
  ghost predicate Evidence(runs: seq<Run>, o: nat, kr: nat, sample: Sample) {
    sample.run < |runs| && runs[sample.run].okr == o && runs[sample.run].kr == kr &&
    runs[sample.run].state.Succeeded? && runs[sample.run].created <= sample.at
  }

  /** The verified KRs are exactly those below the cursor, and every sample has its evidence. */
  ghost predicate Ordered(k: Okr, runs: seq<Run>, o: nat) {
    k.nextKr <= |k.metrics| <= 3 && (k.phase.Achieved? ==> k.nextKr == |k.metrics|) &&
    forall i {:trigger k.metrics[i]} :: 0 <= i < |k.metrics| ==>
      (k.metrics[i].verified <==> i < k.nextKr) &&
      (k.metrics[i].verified ==> TargetMet(k.metrics[i])) &&
      (k.metrics[i].sample.Some? ==> Evidence(runs, o, i, k.metrics[i].sample.value))
  }

  /** A capability serves one agreement of one OKR and its ledger matches its Runs. */
  ghost predicate CapInv(w: World, c: nat)
    requires c < |w.caps|
  {
    var cap := w.caps[c];
    cap.okr < |w.okrs| && cap.agreement <= w.okrs[cap.okr].agreement &&
    cap.reserved == Sum(w.runs, CapHeld(c)) && cap.spent == Sum(w.runs, CapSpent(c)) &&
    cap.claimed == cap.spent + cap.reserved <= cap.maxBudget &&
    (cap.maxUses > 0 ==> cap.uses <= cap.maxUses)
  }

  /** A Run is indexed by its intent, its two claims agree, and its claim is settled exactly in a final state. */
  ghost predicate RunInv(w: World, r: nat)
    requires r < |w.runs|
  {
    var run := w.runs[r];
    run.okr < |w.okrs| && run.cap < |w.caps| &&
    var k, cap := w.okrs[run.okr], w.caps[run.cap];
    cap.okr == run.okr && cap.agreement == run.agreement && Maps(cap.intents, run.command.intent, r) &&
    run.okrClaim == run.capClaim && run.okrClaim.reserved == run.command.amount > 0 &&
      run.okrClaim.spent <= run.command.amount &&
    (run.okrClaim.settled <==> Final(run.state)) && (!run.okrClaim.settled ==> run.okrClaim.spent == 0) &&
    (run.state.Queued? ==> !run.stop) && (run.state.Cancelled? ==> run.stop) &&
    run.agreement <= k.agreement && run.command.asset == k.asset &&
    (Started(run.state) && run.agreement == k.agreement ==> run.kr <= k.nextKr)
  }

  ghost predicate Inv(w: World) {
    w.active == Sum(w.okrs, IsActive()) <= MAX_ACTIVE &&
    (forall o :: 0 <= o < |w.okrs| ==> Balanced(w, o) && Ordered(w.okrs[o], w.runs, o)) &&
    (forall c :: 0 <= c < |w.caps| ==> CapInv(w, c)) &&
    (forall r :: 0 <= r < |w.runs| ==> RunInv(w, r))
  }
}
