/**
 * A standing permission for direct messages to one managed Agent: the ordinary ledger
 * under the standing limit, and a separate ledger for one-off approvals.
 *
 * `authorized` stands for the identity, membership and instance guards of an entry and
 * `workspace` for the shared-workspace state read at that moment; both are arbitrary.
 * Messages, approvals, capabilities and Runs are keyed by their index.
 * `results` are the intents under whose name the organization already holds a result record.
 */
module DirectPermission {
  import opened Common
  import opened OkrProtocol

  datatype Action = Ask | Status | FileRead | FileWrite
  datatype Permission = Permission(
    version: nat, revoked: bool, actions: set<Action>, boundary: nat, maxCalls: nat, limit: nat,
    spent: nat, reserved: nat, approvedSpent: nat, approvedReserved: nat, expires: nat)
  datatype Message = Message(version: nat, token: string, action: Action, boundary: nat, amount: nat, expires: nat)
  datatype Decision = Pending | Granted | Denied | Consumed
  datatype Approval = Approval(message: nat, version: nat, revision: nat, state: Decision, expires: nat)
  datatype Grant = Grant(
    version: nat, approval: Option<nat>, boundary: nat, maxUses: nat, uses: nat, maxBudget: nat, claimed: nat,
    expires: nat, revoked: bool, revision: nat,
    intents: map<nat, nat>, commands: map<nat, nat>, nonces: map<nat, nat>, keys: map<nat, nat>)
  /** Identifiers and lifetime of a signed command; its amount comes from the message. */
  datatype Order = Order(intent: nat, id: nat, nonce: nat, key: nat, issued: nat, expires: nat)
  datatype Task = Task(
    grant: nat, revision: nat, message: nat, version: nat, approval: Option<nat>, order: Order,
    state: RunState, stop: bool, cursor: nat, claim: Claim)
  datatype Workspace = Workspace(protected: bool, revision: nat, complete: bool)
  datatype State = State(
    p: Permission, messages: seq<Message>, approvals: seq<Approval>, grants: seq<Grant>, tasks: seq<Task>,
    approvalOf: map<nat, nat>, taskOf: map<nat, nat>, results: set<nat>)

  const MAX_TTL := 2592000000
  const MESSAGE_TTL := 300000

  datatype Entry =
    | Update(expected: nat, actions: set<Action>, boundary: nat, maxCalls: nat, limit: nat, expires: nat)
    | Revoke(expected: nat)
    | CreateMessage(expected: nat, token: string, action: Action, boundary: nat, amount: nat, expires: nat)
    | RequestApproval(message: nat)
    | Decide(approval: nat, approve: bool)
    | IssueStanding(expected: nat, expires: nat)
    | IssueApproved(approval: nat)
    | RevokeGrant(grant: nat)
    | PrepareTask(message: nat, grant: nat, basis: Option<nat>, order: Order)
    | BeginTask(task: nat)
    | FinishTask(task: nat, final: RunState, cursor: nat, spent: nat)
    | StopTask(task: nat)
    | SaveResult(intent: nat)

  datatype Tx = Tx(entry: Entry, authorized: bool, now: nat, workspace: Workspace)

  predicate ValidTerms(maxCalls: nat, limit: nat, expires: nat, now: nat) {
    maxCalls <= 1000 && maxCalls <= limit && now < expires <= now + MAX_TTL
  }

  /** A permission as it is created. */
  predicate Fresh(s: State) {
    s.p.version == 1 && !s.p.revoked && s.p.maxCalls <= s.p.limit &&
    s.p.spent == s.p.reserved == s.p.approvedSpent == s.p.approvedReserved == 0 &&
    s == State(s.p, [], [], [], [], map[], map[], s.results)
  }

  predicate Usable(p: Permission, now: nat) { !p.revoked && now < p.expires }

  predicate MessageCurrent(s: State, m: nat, now: nat) {
    m < |s.messages| && s.messages[m].version == s.p.version && now < s.messages[m].expires
  }

  predicate NormalAllowed(p: Permission, m: Message, ws: Workspace) {
    m.action in p.actions && m.boundary == p.boundary && m.amount <= p.maxCalls &&
    p.spent <= p.limit && p.reserved <= p.limit - p.spent && m.amount <= p.limit - p.spent - p.reserved &&
    (m.action.FileWrite? ==> ws.complete && !ws.protected)
  }

  predicate ApprovalBound(s: State, a: nat, m: nat) {
    a < |s.approvals| && s.approvals[a].message == m && s.approvals[a].version == s.p.version &&
      Maps(s.approvalOf, m, a)
  }

  predicate ApprovalWorkspace(s: State, a: nat, ws: Workspace)
    requires a < |s.approvals| && s.approvals[a].message < |s.messages|
  {
    s.messages[s.approvals[a].message].action.FileWrite? ==> ws.complete && ws.revision == s.approvals[a].revision
  }

  /** The approval is granted (or already consumed, for a replay or a start) and still valid. */
  predicate Approved(s: State, a: nat, m: nat, state: Decision, now: nat, ws: Workspace)
    requires m < |s.messages|
  {
    ApprovalBound(s, a, m) && ApprovalWorkspace(s, a, ws) && s.approvals[a].state == state &&
      now < s.approvals[a].expires
  }

  /** The capability was issued for this version, this path and this boundary. */
  predicate GrantMatches(s: State, g: nat, m: nat, approval: Option<nat>) {
    g < |s.grants| && m < |s.messages| &&
    s.grants[g].version == s.p.version && s.grants[g].approval == approval &&
      s.grants[g].boundary == s.messages[m].boundary
  }

  function DoUpdate(s: State, e: Entry, now: nat): Commit<State>
    requires e.Update?
  {
    if s.p.version != e.expected || !ValidTerms(e.maxCalls, e.limit, e.expires, now) then Abort else
    if !(s.p.spent <= e.limit && s.p.reserved <= e.limit - s.p.spent) then Abort else
    Done(s.(p := s.p.(version := s.p.version + 1, revoked := false, actions := e.actions, boundary := e.boundary,
                      maxCalls := e.maxCalls, limit := e.limit, expires := e.expires)))
  }

  function DoCreateMessage(s: State, e: Entry, now: nat): Commit<State>
    requires e.CreateMessage?
  {
    if !Usable(s.p, now) || s.p.version != e.expected || !(0 < |e.token| <= 64) then Abort else
    if e.amount > 1000 || !((e.action.Ask? || e.action.Status?) <==> e.amount == 0) then Abort else
    if !(now < e.expires <= now + MESSAGE_TTL && e.expires <= s.p.expires) then Abort else
    if exists m :: 0 <= m < |s.messages| && s.messages[m].token == e.token then Abort else
    Done(s.(messages := s.messages + [Message(s.p.version, e.token, e.action, e.boundary, e.amount, e.expires)]))
  }

  function DoRequestApproval(s: State, m: nat, now: nat, ws: Workspace): Commit<State> {
    if !Usable(s.p, now) || !MessageCurrent(s, m, now) || NormalAllowed(s.p, s.messages[m], ws) then Abort else
    if m in s.approvalOf || m in s.taskOf then Abort else
    Done(s.(approvals := s.approvals + [Approval(m, s.p.version, ws.revision, Pending, s.messages[m].expires)],
            approvalOf := s.approvalOf[m := |s.approvals|]))
  }

  function SetDecision(s: State, a: nat, d: Decision): State
    requires a < |s.approvals|
  {
    s.(approvals := s.approvals[a := s.approvals[a].(state := d)])
  }

  function DoDecide(s: State, a: nat, approve: bool, now: nat, ws: Workspace): Commit<State> {
    if a >= |s.approvals| || !Usable(s.p, now) || !MessageCurrent(s, s.approvals[a].message, now) then Abort else
    if !ApprovalBound(s, a, s.approvals[a].message) || !s.approvals[a].state.Pending? ||
      now >= s.approvals[a].expires then Abort else
    if approve && !ApprovalWorkspace(s, a, ws) then Abort else
    Done(SetDecision(s, a, if approve then Granted else Denied))
  }

  function Issue(s: State, approval: Option<nat>, boundary: nat, budget: nat, maxUses: nat, expires: nat,
    now: nat): Commit<State> {
    if !Usable(s.p, now) || now >= expires then Abort else
    Done(s.(grants := s.grants + [Grant(s.p.version, approval, boundary, maxUses, 0, budget, 0, expires, false, 1,
      map[], map[], map[], map[])]))
  }

  function DoIssueApproved(s: State, a: nat, now: nat, ws: Workspace): Commit<State> {
    if a >= |s.approvals| || !MessageCurrent(s, s.approvals[a].message, now) then Abort else
    var m := s.approvals[a].message;
    if !Approved(s, a, m, Granted, now, ws) then Abort else
    Issue(s, Some(a), s.messages[m].boundary, s.messages[m].amount, 1, s.approvals[a].expires, now)
  }

  /** Add a reservation to the ledger the claim belongs to, and to no other. */
  function Reserving(p: Permission, approval: Option<nat>, amount: nat): Permission {
    if approval.Some? then p.(approvedReserved := p.approvedReserved + amount) else p.(reserved := p.reserved + amount)
  }

  /** A new Run for a message: one claim, one use, one reservation; an approval is consumed. */
  function NewTask(s: State, m: nat, g: nat, approval: Option<nat>, order: Order): State
    requires m < |s.messages| && g < |s.grants| && (approval.Some? ==> approval.value < |s.approvals|)
  {
    var grant := s.grants[g];
    var amount := s.messages[m].amount;
    var grant' := grant.(
      uses := if grant.maxUses > 0 then grant.uses + 1 else grant.uses, claimed := grant.claimed + amount,
      intents := grant.intents[order.intent := |s.tasks|], commands := grant.commands[order.id := order.intent],
      nonces := grant.nonces[order.nonce := order.intent], keys := grant.keys[order.key := order.intent]);
    var task := Task(g, grant.revision, m, s.p.version, approval, order, Queued, false, 1, Claim(amount, 0, false));
    var s' := s.(p := Reserving(s.p, approval, amount), grants := s.grants[g := grant'], tasks := s.tasks + [task],
                 taskOf := s.taskOf[m := |s.tasks|]);
    if approval.Some? then SetDecision(s', approval.value, Consumed) else s'
  }

  /** The recorded claim carries the same identifiers for the same message and path. */
  predicate SameOrder(task: Task, m: nat, approval: Option<nat>, order: Order) {
    task.message == m && task.approval == approval && task.order.intent == order.intent && task.order.id == order.id &&
    task.order.nonce == order.nonce && task.order.key == order.key
  }

  function DoPrepareTask(s: State, m: nat, g: nat, approval: Option<nat>, order: Order, now: nat,
    ws: Workspace): Commit<State> {
    if !Usable(s.p, now) || !MessageCurrent(s, m, now) || !GrantMatches(s, g, m, approval) then Abort else
    var grant, amount := s.grants[g], s.messages[m].amount;
    var duplicate := order.intent in grant.intents;
    if approval.None? && !duplicate && !NormalAllowed(s.p, s.messages[m], ws) then Abort else
    if approval.Some? && !Approved(s, approval.value, m, if duplicate then Consumed else Granted, now, ws)
      then Abort else
    if order.expires > s.messages[m].expires then Abort else
    if m in s.taskOf && !(duplicate && grant.intents[order.intent] == s.taskOf[m]) then Abort else
    if !(order.issued > 0 && order.issued < order.expires <= order.issued + MAX_COMMAND_MS) then Abort else
    if !(now < order.expires && order.issued <= now + CLOCK_SKEW_MS && order.expires <= grant.expires) then Abort else
    if grant.revoked || now >= grant.expires then Abort else
    if order.id in grant.commands then
      // A replay must repeat the original command exactly, and then changes nothing.
      if duplicate && grant.intents[order.intent] < |s.tasks| &&
        SameOrder(s.tasks[grant.intents[order.intent]], m, approval, order)
      then Done(s) else Abort
    else
    if order.key in grant.keys || order.nonce in grant.nonces || duplicate then Abort else
    if grant.maxUses > 0 && grant.uses >= grant.maxUses then Abort else
    if amount > 0 && grant.claimed + amount > grant.maxBudget then Abort else
    Done(NewTask(s, m, g, approval, order))
  }

  function SetTask(s: State, t: nat, task: Task): State
    requires t < |s.tasks|
  {
    s.(tasks := s.tasks[t := task])
  }

  function DoBeginTask(s: State, t: nat, now: nat, ws: Workspace): Commit<State> {
    if t >= |s.tasks| then Abort else
    var task := s.tasks[t];
    if !Usable(s.p, now) || !MessageCurrent(s, task.message, now) ||
      !GrantMatches(s, task.grant, task.message, task.approval) then Abort else
    var m, grant := s.messages[task.message], s.grants[task.grant];
    if task.approval.None? && !(m.action in s.p.actions && m.boundary == s.p.boundary && m.amount <= s.p.maxCalls
                                && (m.action.FileWrite? ==> ws.complete && !ws.protected)) then Abort else
    if task.approval.Some? && !Approved(s, task.approval.value, task.message, Consumed, now, ws) then Abort else
    if task.claim.settled || task.version != s.p.version || !Maps(s.taskOf, task.message, t) then Abort else
    if !task.state.Queued? || task.stop || now >= task.order.expires then Abort else
    if grant.revision != task.revision || grant.revoked || now >= grant.expires then Abort else
    Done(SetTask(s, t, task.(state := Running, cursor := task.cursor + 1)))
  }

  /** Settle in the ledger the claim was reserved in, and on its capability. */
  function SettleTask(s: State, t: nat, spent: nat, state: RunState, stop: bool): Commit<State>
    requires t < |s.tasks|
  {
    var task := s.tasks[t];
    if task.grant >= |s.grants| then Abort else
    var p, grant, held := s.p, s.grants[task.grant], task.claim.reserved;
    if task.claim.settled || spent > held || grant.claimed < held then Abort else
    if (if task.approval.Some? then p.approvedReserved else p.reserved) < held then Abort else
    var p' := if task.approval.Some?
              then p.(approvedReserved := p.approvedReserved - held, approvedSpent := p.approvedSpent + spent)
              else p.(reserved := p.reserved - held, spent := p.spent + spent);
    Done(SetTask(s, t, task.(state := state, stop := stop, cursor := task.cursor + 1,
      claim := Claim(held, spent, true))).(
      p := p', grants := s.grants[task.grant := grant.(claimed := grant.claimed - held + spent)]))
  }

  function DoFinishTask(s: State, t: nat, final: RunState, cursor: nat, spent: nat): Commit<State> {
    if t >= |s.tasks| then Abort else
    var task := s.tasks[t];
    if task.claim.settled || !task.state.Running? || task.cursor != cursor then Abort else
    // The result is a first revision under a name made of the intent alone.
    if task.order.intent in s.results then Abort else
    var s' := s.(results := s.results + {task.order.intent});
    match final
    case Succeeded | Failed => SettleTask(s', t, spent, final, task.stop)
    case Cancelled => if task.stop then SettleTask(s', t, spent, final, task.stop) else Abort
    case NeedsConfirmation => if spent != 0 then Abort else Done(SetTask(s', t,
      task.(state := final, cursor := task.cursor + 1)))
    case Queued | Running => Abort
  }

  function DoStopTask(s: State, t: nat): Commit<State> {
    if t >= |s.tasks| then Abort else
    var task := s.tasks[t];
    if task.claim.settled then Abort
    else if task.state.Queued? then (if task.stop then Abort else SettleTask(s, t, 0, Cancelled, true))
    else if !task.state.Running? then Abort
    else if task.stop then Done(s)
    else Done(SetTask(s, t, task.(stop := true, cursor := task.cursor + 1)))
  }

  function Commits(s: State, tx: Tx): Commit<State> {
    if !tx.authorized then Abort else
    match tx.entry
    case Update(_, _, _, _, _, _) => DoUpdate(s, tx.entry, tx.now)
    case Revoke(expected) =>
      if s.p.version == expected && !s.p.revoked then Done(s.(p :=
        s.p.(revoked := true, version := s.p.version + 1))) else Abort
    case CreateMessage(_, _, _, _, _, _) => DoCreateMessage(s, tx.entry, tx.now)
    case RequestApproval(m) => DoRequestApproval(s, m, tx.now, tx.workspace)
    case Decide(a, approve) => DoDecide(s, a, approve, tx.now, tx.workspace)
    case IssueStanding(expected, expires) =>
      if s.p.version != expected || expires > s.p.expires then Abort
      else Issue(s, None, s.p.boundary, s.p.limit, 10000, expires, tx.now)
    case IssueApproved(a) => DoIssueApproved(s, a, tx.now, tx.workspace)
    case RevokeGrant(g) =>
      if g < |s.grants| && !s.grants[g].revoked
      then Done(s.(grants := s.grants[g := s.grants[g].(revoked := true, revision := s.grants[g].revision + 1)]))
        else Abort
    case PrepareTask(m, g, basis, order) => DoPrepareTask(s, m, g, basis, order, tx.now, tx.workspace)
    case BeginTask(t) => DoBeginTask(s, t, tx.now, tx.workspace)
    case FinishTask(t, final, cursor, spent) => DoFinishTask(s, t, final, cursor, spent)
    case StopTask(t) => DoStopTask(s, t)
    // Any other writer of the organization may take the name of a result.
    case SaveResult(intent) => Done(s.(results := s.results + {intent}))
  }

  function Next(s: State, tx: Tx): State {
    match Commits(s, tx)
    case Done(s') => s'
    case Abort => s
  }

  function Transact(s: State, txs: seq<Tx>): State
    decreases |txs|
  {
    if txs == [] then s else Transact(Next(s, txs[0]), txs[1..])
  }

  // -------------------------------------------------------------- invariant

  ghost function Held(approved: bool): Task -> nat {
    (t: Task) => if t.approval.Some? == approved && !t.claim.settled then t.claim.reserved else 0
  }
  ghost function Paid(approved: bool): Task -> nat {
    (t: Task) => if t.approval.Some? == approved && t.claim.settled then t.claim.spent else 0
  }
  ghost function Used(g: nat): Task -> nat {
    (t: Task) => if t.grant == g then (if t.claim.settled then t.claim.spent else t.claim.reserved) else 0
  }

  ghost predicate Ledgers(p: Permission, tasks: seq<Task>) {
    p.reserved == Sum(tasks, Held(false)) && p.spent == Sum(tasks, Paid(false)) &&
    p.approvedReserved == Sum(tasks, Held(true)) && p.approvedSpent == Sum(tasks, Paid(true)) &&
    p.spent + p.reserved <= p.limit
  }

  ghost predicate GrantsInv(grants: seq<Grant>, tasks: seq<Task>) {
    forall g :: 0 <= g < |grants| ==> grants[g].claimed == Sum(tasks, Used(g))
  }

  ghost predicate TaskInv(s: State, t: nat)
    requires t < |s.tasks|
  {
    var task := s.tasks[t];
    task.grant < |s.grants| && task.message < |s.messages| && Maps(s.taskOf, task.message, t) &&
    task.version == s.messages[task.message].version <= s.p.version &&
    task.claim.reserved == s.messages[task.message].amount && task.claim.spent <= task.claim.reserved &&
    (task.claim.settled <==> Final(task.state)) && (task.state.Queued? ==> !task.stop) &&
    (task.approval.Some? ==>
      task.approval.value < |s.approvals| && s.approvals[task.approval.value].message == task.message &&
      s.approvals[task.approval.value].state.Consumed?)
  }

  ghost predicate ApprovalInv(s: State, a: nat)
    requires a < |s.approvals|
  {
    var ap := s.approvals[a];
    ap.message < |s.messages| && Maps(s.approvalOf, ap.message, a) && ap.version == s.messages[ap.message].version &&
    ap.expires == s.messages[ap.message].expires &&
    (ap.state.Consumed? ==>
      ap.message in s.taskOf && s.taskOf[ap.message] < |s.tasks| && s.tasks[s.taskOf[ap.message]].approval == Some(a))
  }

  /** The two lookups by message lead to a Run and to an approval of that message. */
  ghost predicate Lookups(s: State) {
    (forall m {:trigger m in s.taskOf} :: m in s.taskOf ==>
      s.taskOf[m] < |s.tasks| && s.tasks[s.taskOf[m]].message == m) &&
    (forall m {:trigger m in s.approvalOf} :: m in s.approvalOf ==>
      s.approvalOf[m] < |s.approvals| && s.approvals[s.approvalOf[m]].message == m)
  }

  ghost predicate Sound(s: State) {
    Ledgers(s.p, s.tasks) && GrantsInv(s.grants, s.tasks) &&
    (forall m :: 0 <= m < |s.messages| ==> s.messages[m].version <= s.p.version) &&
    (forall m, n :: 0 <= m < n < |s.messages| ==> s.messages[m].token != s.messages[n].token) &&
    Lookups(s) &&
    (forall a :: 0 <= a < |s.approvals| ==> ApprovalInv(s, a)) &&
    (forall t :: 0 <= t < |s.tasks| ==> TaskInv(s, t))
  }

  // ------------------------------------------------- one lemma per kind of change

  lemma AppendTotals(p: Permission, tasks: seq<Task>, task: Task)
    requires Ledgers(p, tasks) && !task.claim.settled
    requires task.approval.None? ==> task.claim.reserved <= p.limit - p.spent - p.reserved
    ensures Ledgers(Reserving(p, task.approval, task.claim.reserved), tasks + [task])
  {
    SumAppend(tasks, task, Held(true));
    SumAppend(tasks, task, Held(false));
    SumAppend(tasks, task, Paid(true));
    SumAppend(tasks, task, Paid(false));
  }

  lemma AppendClaimed(grants: seq<Grant>, grants': seq<Grant>, tasks: seq<Task>, task: Task)
    requires GrantsInv(grants, tasks) && |grants'| == |grants| && !task.claim.settled
    requires forall h {:trigger grants'[h]} :: 0 <= h < |grants| ==>
      grants'[h].claimed == grants[h].claimed + (if h == task.grant then task.claim.reserved else 0)
    ensures GrantsInv(grants', tasks + [task])
  {
    forall h | 0 <= h < |grants'| ensures grants'[h].claimed == Sum(tasks + [task], Used(h)) {
      SumAppend(tasks, task, Used(h));
    }
  }

  lemma NewTaskLedgers(s: State, m: nat, g: nat, approval: Option<nat>, order: Order)
    requires Ledgers(s.p, s.tasks) && GrantsInv(s.grants, s.tasks)
    requires m < |s.messages| && g < |s.grants| && (approval.Some? ==> approval.value < |s.approvals|)
    requires approval.None? ==> s.messages[m].amount <= s.p.limit - s.p.spent - s.p.reserved
    ensures var s' := NewTask(s, m, g, approval, order); Ledgers(s'.p, s'.tasks) && GrantsInv(s'.grants, s'.tasks)
  {
    var s' := NewTask(s, m, g, approval, order);
    var task := s'.tasks[|s.tasks|];
    AppendTotals(s.p, s.tasks, task);
    AppendClaimed(s.grants, s'.grants, s.tasks, task);
  }

  ghost predicate Startable(s: State, m: nat, g: nat, approval: Option<nat>) {
    m < |s.messages| && m !in s.taskOf && g < |s.grants| && s.messages[m].version == s.p.version &&
    (approval.Some? ==> approval.value < |s.approvals| && s.approvals[approval.value].message == m) &&
    (approval.None? ==> s.messages[m].amount <= s.p.limit - s.p.spent - s.p.reserved)
  }

  lemma NewTaskTasks(s: State, m: nat, g: nat, approval: Option<nat>, order: Order, t: nat)
    requires Sound(s) && Startable(s, m, g, approval) && t <= |s.tasks|
    ensures TaskInv(NewTask(s, m, g, approval, order), t)
  {
    if t < |s.tasks| { assert TaskInv(s, t); }
  }

  lemma NewTaskApprovals(s: State, m: nat, g: nat, approval: Option<nat>, order: Order, a: nat)
    requires Sound(s) && Startable(s, m, g, approval) && a < |s.approvals|
    ensures ApprovalInv(NewTask(s, m, g, approval, order), a)
  {
    assert ApprovalInv(s, a);
  }

  lemma NewTaskLookups(s: State, m: nat, g: nat, approval: Option<nat>, order: Order)
    requires Lookups(s) && Startable(s, m, g, approval)
    ensures Lookups(NewTask(s, m, g, approval, order))
  {
  }

  lemma NewTaskSound(s: State, m: nat, g: nat, approval: Option<nat>, order: Order)
    requires Sound(s) && Startable(s, m, g, approval)
    ensures Sound(NewTask(s, m, g, approval, order))
  {
    NewTaskLedgers(s, m, g, approval, order);
    NewTaskLookups(s, m, g, approval, order);
    var s' := NewTask(s, m, g, approval, order);
    forall t | 0 <= t < |s'.tasks| ensures TaskInv(s', t) {
      NewTaskTasks(s, m, g, approval, order, t);
    }
    forall a | 0 <= a < |s'.approvals| ensures ApprovalInv(s', a) {
      NewTaskApprovals(s, m, g, approval, order, a);
    }
  }

  lemma PrepareSound(s: State, m: nat, g: nat, approval: Option<nat>, order: Order, now: nat, ws: Workspace)
    requires Sound(s) && DoPrepareTask(s, m, g, approval, order, now, ws).Done?
    ensures Sound(DoPrepareTask(s, m, g, approval, order, now, ws).state)
  {
    PrepareFrame(s, m, g, approval, order, now, ws);
    if order.id !in s.grants[g].commands {
      NewTaskSound(s, m, g, approval, order);
    }
  }

  /** Replacing one Run's row moves each ledger by exactly that row. */
  lemma UpdateSums(tasks: seq<Task>, t: nat, task: Task)
    requires t < |tasks|
    ensures forall b :: Sum(tasks[t := task], Held(b)) + Held(b)(tasks[t]) == Sum(tasks, Held(b)) + Held(b)(task)
    ensures forall b :: Sum(tasks[t := task], Paid(b)) + Paid(b)(tasks[t]) == Sum(tasks, Paid(b)) + Paid(b)(task)
    ensures forall g :: Sum(tasks[t := task], Used(g)) + Used(g)(tasks[t]) == Sum(tasks, Used(g)) + Used(g)(task)
  {
    forall b ensures Sum(tasks[t := task], Held(b)) + Held(b)(tasks[t]) == Sum(tasks, Held(b)) + Held(b)(task) {
      SumUpdate(tasks, t, task, Held(b));
    }
    forall b ensures Sum(tasks[t := task], Paid(b)) + Paid(b)(tasks[t]) == Sum(tasks, Paid(b)) + Paid(b)(task) {
      SumUpdate(tasks, t, task, Paid(b));
    }
    forall g ensures Sum(tasks[t := task], Used(g)) + Used(g)(tasks[t]) == Sum(tasks, Used(g)) + Used(g)(task) {
      SumUpdate(tasks, t, task, Used(g));
    }
  }

  /** Everything but the ledgers survives when a Run keeps its identity and allowance. */
  lemma TaskChangeSound(s: State, t: nat, s': State)
    requires Sound(s) && t < |s.tasks| && |s'.tasks| == |s.tasks| && |s'.grants| == |s.grants|
    requires s' == s.(p := s'.p, grants := s'.grants, tasks := s.tasks[t := s'.tasks[t]])
    requires s'.p.version == s.p.version && Ledgers(s'.p, s'.tasks) && GrantsInv(s'.grants, s'.tasks)
    requires s'.tasks[t].message == s.tasks[t].message && s'.tasks[t].approval == s.tasks[t].approval
    requires TaskInv(s', t)
    ensures Sound(s')
  {
    forall u | 0 <= u < |s'.tasks| ensures TaskInv(s', u) {
      assert TaskInv(s, u);
    }
    forall a | 0 <= a < |s'.approvals| ensures ApprovalInv(s', a) {
      assert ApprovalInv(s, a);
    }
  }

  lemma SettleSound(s: State, t: nat, spent: nat, state: RunState, stop: bool)
    requires Sound(s) && t < |s.tasks| && Final(state) && SettleTask(s, t, spent, state, stop).Done?
    ensures Sound(SettleTask(s, t, spent, state, stop).state)
  {
    var s' := SettleTask(s, t, spent, state, stop).state;
    assert TaskInv(s, t);
    UpdateSums(s.tasks, t, s'.tasks[t]);
    forall g | 0 <= g < |s'.grants| ensures s'.grants[g].claimed == Sum(s'.tasks, Used(g)) {
      assert s.grants[g].claimed == Sum(s.tasks, Used(g));
    }
    assert Ledgers(s'.p, s'.tasks) by {
      assert s.p.reserved == Sum(s.tasks, Held(false)) && s.p.approvedReserved == Sum(s.tasks, Held(true));
      assert s.p.spent == Sum(s.tasks, Paid(false)) && s.p.approvedSpent == Sum(s.tasks, Paid(true));
    }
    TaskChangeSound(s, t, s');
  }

  lemma MoveSound(s: State, t: nat, task: Task)
    requires Sound(s) && t < |s.tasks| && task == s.tasks[t].(state := task.state, stop := task.stop,
      cursor := task.cursor)
    requires TaskInv(SetTask(s, t, task), t)
    ensures Sound(SetTask(s, t, task))
  {
    UpdateSums(s.tasks, t, task);
    forall g | 0 <= g < |s.grants| ensures s.grants[g].claimed == Sum(SetTask(s, t, task).tasks, Used(g)) {
      assert s.grants[g].claimed == Sum(s.tasks, Used(g));
    }
    assert Ledgers(s.p, SetTask(s, t, task).tasks) by {
      assert s.p.reserved == Sum(s.tasks, Held(false)) && s.p.approvedReserved == Sum(s.tasks, Held(true));
      assert s.p.spent == Sum(s.tasks, Paid(false)) && s.p.approvedSpent == Sum(s.tasks, Paid(true));
    }
    TaskChangeSound(s, t, SetTask(s, t, task));
  }

  /** The saved results play no part in the invariant. */
  lemma ResultsSound(s: State, results: set<nat>)
    requires Sound(s)
    ensures Sound(s.(results := results))
  {
    var s' := s.(results := results);
    forall t | 0 <= t < |s'.tasks| ensures TaskInv(s', t) {
      assert TaskInv(s, t);
    }
    forall a | 0 <= a < |s'.approvals| ensures ApprovalInv(s', a) {
      assert ApprovalInv(s, a);
    }
  }

  lemma BeginSound(s: State, t: nat, now: nat, ws: Workspace)
    requires Sound(s) && DoBeginTask(s, t, now, ws).Done?
    ensures Sound(DoBeginTask(s, t, now, ws).state)
  {
    assert TaskInv(s, t);
    MoveSound(s, t, s.tasks[t].(state := Running, cursor := s.tasks[t].cursor + 1));
  }

  lemma FinishSound(s: State, t: nat, final: RunState, cursor: nat, spent: nat)
    requires Sound(s) && DoFinishTask(s, t, final, cursor, spent).Done?
    ensures Sound(DoFinishTask(s, t, final, cursor, spent).state)
  {
    var s' := s.(results := s.results + {s.tasks[t].order.intent});
    ResultsSound(s, s'.results);
    assert TaskInv(s', t);
    if final.NeedsConfirmation? {
      MoveSound(s', t, s.tasks[t].(state := final, cursor := s.tasks[t].cursor + 1));
    } else {
      SettleSound(s', t, spent, final, s.tasks[t].stop);
    }
  }

  lemma StopSound(s: State, t: nat)
    requires Sound(s) && DoStopTask(s, t).Done?
    ensures Sound(DoStopTask(s, t).state)
  {
    assert TaskInv(s, t);
    if s.tasks[t].state.Queued? {
      SettleSound(s, t, 0, Cancelled, true);
    } else if !s.tasks[t].stop {
      MoveSound(s, t, s.tasks[t].(stop := true, cursor := s.tasks[t].cursor + 1));
    }
  }

  lemma TermsSound(s: State, tx: Tx)
    requires Sound(s) && Commits(s, tx).Done? && (tx.entry.Update? || tx.entry.Revoke? || tx.entry.CreateMessage?)
    ensures Sound(Commits(s, tx).state)
  {
    var s' := Commits(s, tx).state;
    forall t | 0 <= t < |s.tasks| ensures TaskInv(s', t) {
      assert TaskInv(s, t);
    }
    forall a | 0 <= a < |s'.approvals| ensures ApprovalInv(s', a) {
      assert ApprovalInv(s, a);
    }
  }

  lemma DecisionSound(s: State, tx: Tx)
    requires Sound(s) && Commits(s, tx).Done? && (tx.entry.RequestApproval? || tx.entry.Decide?)
    ensures Sound(Commits(s, tx).state)
  {
    var s' := Commits(s, tx).state;
    forall t | 0 <= t < |s.tasks| ensures TaskInv(s', t) {
      assert TaskInv(s, t);
    }
    forall a | 0 <= a < |s'.approvals| ensures ApprovalInv(s', a) {
      if a < |s.approvals| { assert ApprovalInv(s, a); }
    }
  }

  lemma GrantsSound(s: State, grants: seq<Grant>)
    requires Sound(s) && |s.grants| <= |grants|
    requires forall g {:trigger grants[g]} :: 0 <= g < |grants| ==>
      grants[g].claimed == if g < |s.grants| then s.grants[g].claimed else 0
    ensures Sound(s.(grants := grants))
  {
    var s' := s.(grants := grants);
    forall t | 0 <= t < |s.tasks| ensures TaskInv(s', t) {
      assert TaskInv(s, t);
    }
    forall a | 0 <= a < |s'.approvals| ensures ApprovalInv(s', a) {
      assert ApprovalInv(s, a);
    }
    forall g | 0 <= g < |grants| ensures grants[g].claimed == Sum(s.tasks, Used(g)) {
      if g < |s.grants| {
        assert s.grants[g].claimed == Sum(s.tasks, Used(g));
      } else {
        forall t | 0 <= t < |s.tasks| ensures Used(g)(s.tasks[t]) == 0 { assert TaskInv(s, t); }
        SumZero(s.tasks, Used(g));
      }
    }
  }

  lemma GrantEntrySound(s: State, tx: Tx)
    requires Sound(s) && Commits(s, tx).Done? && (tx.entry.IssueStanding? || tx.entry.IssueApproved? ||
      tx.entry.RevokeGrant?)
    ensures Sound(Commits(s, tx).state)
  {
    GrantsSound(s, Commits(s, tx).state.grants);
  }

  lemma NextSound(s: State, tx: Tx)
    requires Sound(s)
    ensures Sound(Next(s, tx))
  {
    if Commits(s, tx).Done? {
      match tx.entry
      case PrepareTask(m, g, basis, order) => PrepareSound(s, m, g, basis, order, tx.now, tx.workspace);
      case BeginTask(t) => BeginSound(s, t, tx.now, tx.workspace);
      case FinishTask(t, final, cursor, spent) => FinishSound(s, t, final, cursor, spent);
      case StopTask(t) => StopSound(s, t);
      case SaveResult(intent) => ResultsSound(s, s.results + {intent});
      case Update(_, _, _, _, _, _) => TermsSound(s, tx);
      case Revoke(_) => TermsSound(s, tx);
      case CreateMessage(_, _, _, _, _, _) => TermsSound(s, tx);
      case RequestApproval(_) => DecisionSound(s, tx);
      case Decide(_, _) => DecisionSound(s, tx);
      case _ => GrantEntrySound(s, tx);
    }
  }

  lemma {:induction false} TransactSound(s: State, txs: seq<Tx>)
    requires Sound(s)
    ensures Sound(Transact(s, txs))
    decreases |txs|
  {
    if txs != [] {
      NextSound(s, txs[0]);
      TransactSound(Next(s, txs[0]), txs[1..]);
    }
  }

  // ------------------------------------------------------------------- theorems

  lemma FreshSound(s: State)
    requires Fresh(s)
    ensures Sound(s)
  {
  }

  /** After every run, each ledger is the sum over its own claims, and the standing limit holds whatever was
      approved. */
  lemma LedgersNeverMix(s: State, txs: seq<Tx>)
    requires Fresh(s)
    ensures var s' := Transact(s, txs);
      s'.p.reserved == Sum(s'.tasks, Held(false)) && s'.p.spent == Sum(s'.tasks, Paid(false)) &&
      s'.p.approvedReserved == Sum(s'.tasks, Held(true)) && s'.p.approvedSpent == Sum(s'.tasks, Paid(true)) &&
      s'.p.spent + s'.p.reserved <= s'.p.limit
  {
    FreshSound(s);
    TransactSound(s, txs);
  }

  /** No message and no approval ever pays for two Runs, and an approved Run belongs to the approval's own message. */
  lemma OneRunPerMessage(s: State, t: nat, u: nat)
    requires Sound(s) && t < |s.tasks| && u < |s.tasks|
    requires s.tasks[t].message == s.tasks[u].message || (s.tasks[t].approval.Some? &&
      s.tasks[t].approval == s.tasks[u].approval)
    ensures t == u
  {
    assert TaskInv(s, t) && TaskInv(s, u);
  }

  /** What later states keep: rows keep their allowance, decided approvals stay decided, indexes only grow. */
  ghost predicate TaskLater(t: Task, t': Task) {
    t'.grant == t.grant && t'.message == t.message && t'.version == t.version && t'.approval == t.approval &&
      t'.order == t.order &&
    t'.claim.reserved == t.claim.reserved && (t.claim.settled ==> t' == t) &&
      (t.state.NeedsConfirmation? ==> t' == t) &&
    (t'.state.Queued? ==> t == t')
  }

  ghost predicate DecisionLater(d: Decision, d': Decision) {
    d' == d || d.Pending? || (d.Granted? && d'.Consumed?)
  }

  ghost predicate TasksSince(x: seq<Task>, y: seq<Task>) {
    |x| <= |y| && forall t {:trigger x[t]} {:trigger y[t]} :: 0 <= t < |x| ==> TaskLater(x[t], y[t])
  }

  ghost predicate ApprovalsSince(x: seq<Approval>, y: seq<Approval>) {
    |x| <= |y| && forall a {:trigger x[a]} {:trigger y[a]} :: 0 <= a < |x| ==>
      y[a].message == x[a].message && DecisionLater(x[a].state, y[a].state)
  }

  ghost predicate GrantsSince(x: seq<Grant>, y: seq<Grant>) {
    |x| <= |y| && forall g {:trigger x[g]} {:trigger y[g]} :: 0 <= g < |x| ==> x[g].commands.Keys <= y[g].commands.Keys
  }

  ghost predicate Since(s: State, s': State) {
    s.p.version <= s'.p.version && s.p.spent <= s'.p.spent && s.p.approvedSpent <= s'.p.approvedSpent &&
      s.results <= s'.results &&
    TasksSince(s.tasks, s'.tasks) && ApprovalsSince(s.approvals, s'.approvals) && GrantsSince(s.grants, s'.grants)
  }

  predicate MovesTask(e: Entry) { e.BeginTask? || e.FinishTask? || e.StopTask? }

  /** A settlement touches one Run, its own ledger and its capability's total. */
  lemma SettleFrame(s: State, t: nat, spent: nat, state: RunState, stop: bool)
    requires t < |s.tasks| && !s.tasks[t].state.NeedsConfirmation? && SettleTask(s, t, spent, state, stop).Done? &&
      Final(state)
    ensures OneMoved(s, t, SettleTask(s, t, spent, state, stop).state)
  {
  }

  ghost predicate OneMoved(s: State, t: nat, s': State) {
    t < |s.tasks| && |s'.tasks| == |s.tasks| && s'.tasks == s.tasks[t := s'.tasks[t]] && s'.approvals == s.approvals &&
    GrantsSince(s.grants, s'.grants) &&
    s'.p == s.p.(spent := s'.p.spent, reserved := s'.p.reserved, approvedSpent := s'.p.approvedSpent,
      approvedReserved := s'.p.approvedReserved) &&
    s.p.spent <= s'.p.spent && s.p.approvedSpent <= s'.p.approvedSpent && s.results <= s'.results &&
    (if s.tasks[t].approval.Some? then s'.p.spent == s.p.spent && s'.p.reserved == s.p.reserved
     else s'.p.approvedSpent == s.p.approvedSpent && s'.p.approvedReserved == s.p.approvedReserved) &&
    (s.tasks[t] == s'.tasks[t] || (!s.tasks[t].claim.settled && !s.tasks[t].state.NeedsConfirmation? &&
      !s'.tasks[t].state.Queued? &&
      s'.tasks[t] == s.tasks[t].(state := s'.tasks[t].state, stop := s'.tasks[t].stop, cursor := s'.tasks[t].cursor,
        claim := s'.tasks[t].claim) &&
      s'.tasks[t].claim.reserved == s.tasks[t].claim.reserved))
  }

  lemma FinishFrame(s: State, t: nat, final: RunState, cursor: nat, spent: nat)
    requires DoFinishTask(s, t, final, cursor, spent).Done?
    ensures OneMoved(s, t, DoFinishTask(s, t, final, cursor, spent).state)
    ensures s.tasks[t].order.intent !in s.results
  {
    if !final.NeedsConfirmation? {
      SettleFrame(s.(results := s.results + {s.tasks[t].order.intent}), t, spent, final, s.tasks[t].stop);
    }
  }

  lemma StopFrame(s: State, t: nat)
    requires DoStopTask(s, t).Done?
    ensures OneMoved(s, t, DoStopTask(s, t).state)
    ensures s.tasks[t].state.Running? ==> DoStopTask(s, t).state.tasks[t].state.Running?
  {
    if s.tasks[t].state.Queued? {
      SettleFrame(s, t, 0, Cancelled, true);
    }
  }

  lemma MovesOne(s: State, tx: Tx)
    requires MovesTask(tx.entry) && Commits(s, tx).Done?
    ensures OneMoved(s, tx.entry.task, Commits(s, tx).state)
  {
    if tx.entry.FinishTask? {
      FinishFrame(s, tx.entry.task, tx.entry.final, tx.entry.cursor, tx.entry.spent);
    } else if tx.entry.StopTask? {
      StopFrame(s, tx.entry.task);
    }
  }

  /** A committed preparation is an exact replay, or one new Run for a message that has none. */
  lemma PrepareFrame(s: State, m: nat, g: nat, approval: Option<nat>, order: Order, now: nat, ws: Workspace)
    requires DoPrepareTask(s, m, g, approval, order, now, ws).Done?
    ensures m < |s.messages| && g < |s.grants|
    ensures var s' := DoPrepareTask(s, m, g, approval, order, now, ws).state;
      if order.id in s.grants[g].commands then s' == s else
        Startable(s, m, g, approval) && (approval.Some? ==> s.approvals[approval.value].state.Granted?) &&
          s' == NewTask(s, m, g, approval, order)
  {
  }

  /** Nothing but terms, messages, approvals, grants and saved results changes. */
  ghost predicate SetupOnly(s: State, s': State, limit: bool) {
    s'.tasks == s.tasks && s'.p.spent == s.p.spent && s'.p.reserved == s.p.reserved &&
    s'.p.approvedSpent == s.p.approvedSpent && s'.p.approvedReserved == s.p.approvedReserved &&
    s.p.version <= s'.p.version && s.results <= s'.results &&
    (!limit ==> s'.p.limit == s.p.limit && s'.p.maxCalls == s.p.maxCalls) &&
    ApprovalsSince(s.approvals, s'.approvals) && GrantsSince(s.grants, s'.grants)
  }

  lemma TermsFrame(s: State, tx: Tx)
    requires (tx.entry.Update? || tx.entry.Revoke? || tx.entry.CreateMessage? || tx.entry.SaveResult?) &&
      Commits(s, tx).Done?
    ensures SetupOnly(s, Commits(s, tx).state, tx.entry.Update?)
  {
  }

  lemma DecisionFrame(s: State, tx: Tx)
    requires (tx.entry.RequestApproval? || tx.entry.Decide?) && Commits(s, tx).Done?
    ensures SetupOnly(s, Commits(s, tx).state, false)
  {
  }

  /** Everything but work on a Run leaves the Runs and all four totals alone. */
  lemma SetupFrame(s: State, tx: Tx)
    requires !MovesTask(tx.entry) && !tx.entry.PrepareTask? && Commits(s, tx).Done?
    ensures SetupOnly(s, Commits(s, tx).state, tx.entry.Update?)
  {
    if tx.entry.Update? || tx.entry.Revoke? || tx.entry.CreateMessage? || tx.entry.SaveResult? {
      TermsFrame(s, tx);
    } else if tx.entry.RequestApproval? || tx.entry.Decide? {
      DecisionFrame(s, tx);
    }
  }

  predicate OnApproval(s: State, e: Entry) {
    (e.PrepareTask? && e.basis.Some?) ||
    (MovesTask(e) && e.task < |s.tasks| && s.tasks[e.task].approval.Some?)
  }

  predicate OnTask(e: Entry) { e.PrepareTask? || MovesTask(e) }

  /** Work on an approval never touches the standing ledger, ordinary work never touches the approved ledger, and
      only an update changes the limit. */
  lemma LedgerIsolation(s: State, tx: Tx)
    ensures var p, q := s.p, Next(s, tx).p;
      (OnApproval(s, tx.entry) || !OnTask(tx.entry) ==> q.spent == p.spent && q.reserved == p.reserved) &&
      (!OnApproval(s, tx.entry) ==> q.approvedSpent == p.approvedSpent && q.approvedReserved == p.approvedReserved) &&
      (!tx.entry.Update? ==> q.limit == p.limit && q.maxCalls == p.maxCalls)
  {
    if Commits(s, tx).Done? {
      var e := tx.entry;
      if MovesTask(e) {
        MovesOne(s, tx);
      } else if e.PrepareTask? {
        PrepareFrame(s, e.message, e.grant, e.basis, e.order, tx.now, tx.workspace);
      } else {
        SetupFrame(s, tx);
      }
    }
  }

  lemma NewTaskSince(s: State, m: nat, g: nat, approval: Option<nat>, order: Order)
    requires Sound(s) && Startable(s, m, g, approval) && (approval.Some? ==> s.approvals[approval.value].state.Granted?)
    ensures Since(s, NewTask(s, m, g, approval, order))
  {
    var s' := NewTask(s, m, g, approval, order);
    assert TasksSince(s.tasks, s'.tasks);
    assert ApprovalsSince(s.approvals, s'.approvals);
  }

  lemma NextSince(s: State, tx: Tx)
    requires Sound(s)
    ensures Since(s, Next(s, tx))
  {
    if Commits(s, tx).Done? {
      var e := tx.entry;
      if MovesTask(e) {
        MovesOne(s, tx);
        assert TaskInv(s, e.task);
      } else if e.PrepareTask? {
        PrepareFrame(s, e.message, e.grant, e.basis, e.order, tx.now, tx.workspace);
        if e.order.id !in s.grants[e.grant].commands {
          NewTaskSince(s, e.message, e.grant, e.basis, e.order);
        }
      } else {
        SetupFrame(s, tx);
      }
    }
  }

  lemma {:induction false} TransactSince(s: State, txs: seq<Tx>)
    requires Sound(s)
    ensures Since(s, Transact(s, txs))
    decreases |txs|
  {
    if txs != [] {
      NextSince(s, txs[0]);
      NextSound(s, txs[0]);
      TransactSince(Next(s, txs[0]), txs[1..]);
    }
  }

  /** A settled claim keeps its original allowance and its spend for ever. */
  lemma SettledClaimKept(s: State, txs: seq<Tx>, t: nat)
    requires Sound(s) && t < |s.tasks|
    ensures var s' := Transact(s, txs);
      s.tasks[t].message < |s.messages| && t < |s'.tasks| &&
        s'.tasks[t].claim.reserved == s.messages[s.tasks[t].message].amount &&
      (s.tasks[t].claim.settled ==> s'.tasks[t] == s.tasks[t])
  {
    assert TaskInv(s, t);
    TransactSince(s, txs);
  }

  /** A prepared command never reserves again: any later replay aborts or changes nothing. */
  lemma ReplayChangesNoLedger(s: State, m: nat, g: nat, approval: Option<nat>, order: Order, now: nat, ws: Workspace,
                              txs: seq<Tx>, now': nat, ws': Workspace)
    requires Sound(s) && DoPrepareTask(s, m, g, approval, order, now, ws).Done?
    ensures var s' := Transact(DoPrepareTask(s, m, g, approval, order, now, ws).state, txs);
      DoPrepareTask(s', m, g, approval, order, now', ws').Done? ==>
        DoPrepareTask(s', m, g, approval, order, now', ws').state == s'
  {
    PrepareSound(s, m, g, approval, order, now, ws);
    PrepareFrame(s, m, g, approval, order, now, ws);
    var s1 := DoPrepareTask(s, m, g, approval, order, now, ws).state;
    assert order.id in s1.grants[g].commands.Keys;
    TransactSince(s1, txs);
    var s' := Transact(s1, txs);
    assert s1.grants[g].commands.Keys <= s'.grants[g].commands.Keys;
    if DoPrepareTask(s', m, g, approval, order, now', ws').Done? {
      PrepareFrame(s', m, g, approval, order, now', ws');
    }
  }

  /** Settlement stays possible under every later policy version, after revocation and expiry; the Run's own ledger
      gets its whole reservation back, the other one is untouched and nothing is spent. */
  lemma OldReservationCancellable(s: State, t: nat)
    requires Sound(s) && t < |s.tasks|
    ensures DoStopTask(s, t).Done? <==> s.tasks[t].state.Queued? || s.tasks[t].state.Running?
    ensures s.tasks[t].state.Queued? ==>
      var s', held := DoStopTask(s, t).state, s.tasks[t].claim.reserved;
      s'.tasks[t].state.Cancelled? && s'.tasks[t].claim == Claim(held, 0, true) &&
      s'.p == (if s.tasks[t].approval.Some? then s.p.(approvedReserved := s'.p.approvedReserved)
        else s.p.(reserved := s'.p.reserved)) &&
      (if s.tasks[t].approval.Some? then s'.p.approvedReserved + held == s.p.approvedReserved
        else s'.p.reserved + held == s.p.reserved)
  {
    assert TaskInv(s, t);
    SumAtLeast(s.tasks, t, Held(s.tasks[t].approval.Some?));
    SumAtLeast(s.tasks, t, Used(s.tasks[t].grant));
  }

  /** The same for reporting a result: the policy in force plays no part, only the Run, its allowance and the name of
      its result. */
  lemma OldRunFinishable(s: State, t: nat, final: RunState, cursor: nat, spent: nat)
    requires Sound(s) && t < |s.tasks|
    ensures DoFinishTask(s, t, final, cursor, spent).Done? <==>
      s.tasks[t].state.Running? && s.tasks[t].cursor == cursor && s.tasks[t].order.intent !in s.results &&
      ((final.NeedsConfirmation? && spent == 0) ||
       (spent <= s.tasks[t].claim.reserved && (final.Succeeded? || final.Failed? ||
         (final.Cancelled? && s.tasks[t].stop))))
  {
    assert TaskInv(s, t);
    SumAtLeast(s.tasks, t, Held(s.tasks[t].approval.Some?));
    SumAtLeast(s.tasks, t, Used(s.tasks[t].grant));
  }

  /** A running Run whose intent already has a saved result. */
  ghost predicate Blocked(s: State, t: nat) {
    t < |s.tasks| && s.tasks[t].state.Running? && s.tasks[t].order.intent in s.results
  }

  lemma BlockedStep(s: State, tx: Tx, t: nat)
    requires Sound(s) && Blocked(s, t)
    ensures Blocked(Next(s, tx), t)
  {
    NextSince(s, tx);
    if Commits(s, tx).Done? {
      var e := tx.entry;
      if e.FinishTask? {
        FinishFrame(s, e.task, e.final, e.cursor, e.spent);
      } else if e.StopTask? {
        StopFrame(s, e.task);
      } else if e.PrepareTask? {
        PrepareFrame(s, e.message, e.grant, e.basis, e.order, tx.now, tx.workspace);
      } else if !MovesTask(e) {
        SetupFrame(s, tx);
      }
    }
  }

  /** Of two Runs in progress with the same intent, the first to finish blocks the other. */
  lemma SecondResultBlocked(s: State, t: nat, u: nat, final: RunState, cursor: nat, spent: nat)
    requires Sound(s) && t < |s.tasks| && u < |s.tasks| && u != t && s.tasks[u].state.Running?
    requires s.tasks[t].order.intent == s.tasks[u].order.intent && DoFinishTask(s, t, final, cursor, spent).Done?
    ensures Sound(DoFinishTask(s, t, final, cursor, spent).state) &&
      Blocked(DoFinishTask(s, t, final, cursor, spent).state, u)
  {
    FinishSound(s, t, final, cursor, spent);
    FinishFrame(s, t, final, cursor, spent);
  }

  /** Such a Run can never be finished again and keeps its claim open in every continuation. */
  lemma {:induction false} BlockedForever(s: State, txs: seq<Tx>, t: nat)
    requires Sound(s) && Blocked(s, t)
    ensures var s' := Transact(s, txs);
      Blocked(s', t) && !s'.tasks[t].claim.settled && forall final, cursor,
        spent :: DoFinishTask(s', t, final, cursor, spent).Abort?
    decreases |txs|
  {
    if txs == [] {
      assert TaskInv(s, t);
    } else {
      BlockedStep(s, txs[0], t);
      NextSound(s, txs[0]);
      BlockedForever(Next(s, txs[0]), txs[1..], t);
    }
  }

  ghost predicate NotStarted(t: Task) { t.state.Queued? || (t.state.Cancelled? && t.claim.spent == 0) }

  lemma OldStep(s: State, tx: Tx, t: nat)
    requires Sound(s) && t < |s.tasks| && s.tasks[t].version < s.p.version && NotStarted(s.tasks[t])
    ensures var s' := Next(s, tx); t < |s'.tasks| && s'.tasks[t].version < s'.p.version && NotStarted(s'.tasks[t])
  {
    NextSince(s, tx);
    assert TaskInv(s, t);
    if Commits(s, tx).Done? {
      var e := tx.entry;
      if MovesTask(e) {
        MovesOne(s, tx);
      } else if e.PrepareTask? {
        PrepareFrame(s, e.message, e.grant, e.basis, e.order, tx.now, tx.workspace);
      } else {
        SetupFrame(s, tx);
      }
    }
  }

  /** A Run queued under an older policy version never starts, whatever happens later. */
  lemma {:induction false} OldRunNeverStarts(s: State, txs: seq<Tx>, t: nat)
    requires Sound(s) && t < |s.tasks| && s.tasks[t].version < s.p.version && NotStarted(s.tasks[t])
    ensures t < |Transact(s, txs).tasks| && NotStarted(Transact(s, txs).tasks[t])
    decreases |txs|
  {
    if txs != [] {
      OldStep(s, txs[0], t);
      NextSound(s, txs[0]);
      OldRunNeverStarts(Next(s, txs[0]), txs[1..], t);
    }
  }

  /** Every approved Run rests on an approval that was consumed for it and can never be granted or consumed again. */
  lemma ApprovalUsedOnce(s: State, txs: seq<Tx>, a: nat)
    requires Sound(s) && a < |s.approvals| && (s.approvals[a].state.Consumed? || s.approvals[a].state.Denied?)
    ensures var s' := Transact(s, txs);
      a < |s'.approvals| && s'.approvals[a].state == s.approvals[a].state &&
      forall m, g, order, now, ws ::
        DoPrepareTask(s', m, g, Some(a), order, now, ws).Done? ==>
          DoPrepareTask(s', m, g, Some(a), order, now, ws).state == s'
  {
    TransactSince(s, txs);
  }
}
