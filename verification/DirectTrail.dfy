/**
 * The trail behind a standing permission: every decision, message, grant, Run and term in it was put
 * there by a committed transaction that said exactly that. `past` is the log of committed
 * transactions and `first` the permission as it was created.
 */
module DirectTrail {
  import opened Common
  import opened OkrProtocol
  import opened DirectPermission

  function Log(s: State, txs: seq<Tx>): seq<Tx>
    decreases |txs|
  {
    if txs == [] then [] else Now(s, txs[0]) + Log(Next(s, txs[0]), txs[1..])
  }

  function Now(s: State, tx: Tx): seq<Tx> { if Commits(s, tx).Done? then [tx] else [] }

  // ------------------------------------------------------------ what the log says

  function Sent(past: seq<Tx>): nat {
    if past == [] then 0 else Sent(past[..|past| - 1]) + (if past[|past| - 1].entry.CreateMessage? then 1 else 0)
  }

  function Asked(past: seq<Tx>): nat {
    if past == [] then 0 else Asked(past[..|past| - 1]) + (if past[|past| - 1].entry.RequestApproval? then 1 else 0)
  }

  /** How often the terms changed or were revoked. */
  function Turns(past: seq<Tx>): nat {
    if past == [] then 0 else
    Turns(past[..|past| - 1]) + (if past[|past| - 1].entry.Update? || past[|past| - 1].entry.Revoke? then 1 else 0)
  }

  /** The terms in force: those of the latest update, or those the permission was created with. */
  function Terms(first: Permission, past: seq<Tx>): Permission {
    if past == [] then first else
    var e := past[|past| - 1].entry;
    if e.Update? then
      first.(actions := e.actions, boundary := e.boundary, maxCalls := e.maxCalls, limit := e.limit,
        expires := e.expires, revoked := false)
    else if e.Revoke? then Terms(first, past[..|past| - 1]).(revoked := true)
    else Terms(first, past[..|past| - 1])
  }

  ghost predicate SameTerms(p: Permission, t: Permission) {
    p.actions == t.actions && p.boundary == t.boundary && p.maxCalls == t.maxCalls && p.limit == t.limit &&
    p.expires == t.expires && p.revoked == t.revoked
  }

  ghost predicate Decided(past: seq<Tx>, a: nat, approve: bool) {
    exists j: nat {:trigger past[j]} :: j < |past| && past[j].entry == Decide(a, approve)
  }

  ghost predicate SpentOn(past: seq<Tx>, a: nat) {
    exists j: nat {:trigger past[j]} :: j < |past| && past[j].entry.PrepareTask? && past[j].entry.basis == Some(a)
  }

  /** Message `m` is the one the m-th message transaction wrote, under the version of that moment. */
  ghost predicate MessageTraced(msg: Message, m: nat, first: Permission, past: seq<Tx>) {
    exists j: nat {:trigger past[j]} :: j < |past| && past[j].entry.CreateMessage? && Sent(past[..j]) == m &&
      msg == Message(first.version + Turns(past[..j]), past[j].entry.token, past[j].entry.action,
        past[j].entry.boundary,
        past[j].entry.amount, past[j].entry.expires)
  }

  /** Approval `a` was asked for its message, and stands as a human decided it; a consumed one was granted. */
  ghost predicate ApprovalTraced(ap: Approval, a: nat, past: seq<Tx>) {
    AskedBy(past, ap.message, ap.revision, a) &&
    (ap.state.Granted? || ap.state.Consumed? ==> Decided(past, a, true)) &&
    (ap.state.Denied? ==> Decided(past, a, false)) && (ap.state.Consumed? ==> SpentOn(past, a))
  }

  /** The a-th request was for message `m`, while the workspace stood at this revision. */
  ghost predicate AskedBy(past: seq<Tx>, m: nat, revision: nat, a: nat) {
    exists j: nat {:trigger past[j]} :: j < |past| && past[j].entry == RequestApproval(m) && Asked(past[..j]) == a &&
      past[j].workspace.revision == revision
  }

  ghost predicate TermsWere(first: Permission, past: seq<Tx>, limit: nat, boundary: nat) {
    exists j: nat {:trigger past[..j]} :: j <= |past| && Terms(first, past[..j]).limit == limit &&
      Terms(first, past[..j]).boundary == boundary
  }

  /** A standing grant carries the version and expiry it was asked for and a limit and boundary that were in force,
      an approved one exactly its approval's version and expiry, its message's amount and boundary, and one use. */
  ghost predicate GrantTraced(g: Grant, i: nat, s: State, first: Permission, past: seq<Tx>) {
    (g.revoked ==> GrantRevokedBy(past, i)) &&
    if g.approval.None? then
      g.maxUses == 10_000 && TermsWere(first, past, g.maxBudget, g.boundary) && StandingBy(past, g.version, g.expires)
    else
      g.maxUses == 1 && g.approval.value < |s.approvals| && s.approvals[g.approval.value].message < |s.messages| &&
      g.maxBudget == s.messages[s.approvals[g.approval.value].message].amount &&
      g.boundary == s.messages[s.approvals[g.approval.value].message].boundary &&
      g.version == s.approvals[g.approval.value].version && g.expires == s.approvals[g.approval.value].expires &&
      ApprovedBy(past, g.approval.value)
  }

  ghost predicate StandingBy(past: seq<Tx>, version: nat, expires: nat) {
    exists j: nat {:trigger past[j]} :: j < |past| && past[j].entry == IssueStanding(version, expires)
  }

  ghost predicate GrantRevokedBy(past: seq<Tx>, g: nat) {
    exists j: nat {:trigger past[j]} :: j < |past| && past[j].entry == RevokeGrant(g)
  }

  ghost predicate ApprovedBy(past: seq<Tx>, a: nat) {
    exists j: nat {:trigger past[j]} :: j < |past| && past[j].entry == IssueApproved(a)
  }

  ghost predicate PreparedBy(past: seq<Tx>, t: Task) {
    exists j: nat {:trigger past[j]} :: j < |past| && past[j].entry ==
      PrepareTask(t.message, t.grant, t.approval, t.order)
  }

  ghost predicate BegunBy(past: seq<Tx>, t: nat) {
    exists j: nat {:trigger past[j]} :: j < |past| && past[j].entry == BeginTask(t)
  }

  ghost predicate StoppedBy(past: seq<Tx>, t: nat) {
    exists j: nat {:trigger past[j]} :: j < |past| && past[j].entry == StopTask(t)
  }

  ghost predicate FinishedBy(past: seq<Tx>, t: nat, state: RunState, spent: nat) {
    exists j: nat {:trigger past[j]} :: j < |past| && past[j].entry.FinishTask? && past[j].entry.task == t &&
      past[j].entry.final == state && past[j].entry.spent == spent
  }

  ghost predicate TaskTraced(task: Task, t: nat, past: seq<Tx>) {
    PreparedBy(past, task) && (Started(task.state) ==> BegunBy(past, t)) && (task.stop ==> StoppedBy(past, t)) &&
    (task.state.Succeeded? || task.state.Failed? || task.state.NeedsConfirmation? ==>
      FinishedBy(past, t, task.state, task.claim.spent)) &&
    (task.state.Cancelled? ==> FinishedBy(past, t, Cancelled, task.claim.spent) || task.claim.spent == 0) &&
    (task.claim.spent > 0 ==> task.claim.settled)
  }

  ghost predicate TermsFrom(p: Permission, first: Permission, past: seq<Tx>) {
    p.version == first.version + Turns(past) && SameTerms(p, Terms(first, past))
  }

  ghost predicate MessagesFrom(messages: seq<Message>, first: Permission, past: seq<Tx>) {
    |messages| == Sent(past) && forall m :: 0 <= m < |messages| ==> MessageTraced(messages[m], m, first, past)
  }

  ghost predicate ApprovalsFrom(approvals: seq<Approval>, past: seq<Tx>) {
    |approvals| == Asked(past) && forall a :: 0 <= a < |approvals| ==> ApprovalTraced(approvals[a], a, past)
  }

  ghost predicate GrantsFrom(s: State, first: Permission, past: seq<Tx>) {
    forall g :: 0 <= g < |s.grants| ==> GrantTraced(s.grants[g], g, s, first, past)
  }

  ghost predicate TasksFrom(tasks: seq<Task>, past: seq<Tx>) {
    forall t :: 0 <= t < |tasks| ==> TaskTraced(tasks[t], t, past)
  }

  ghost predicate Traced(s: State, first: Permission, past: seq<Tx>) {
    TermsFrom(s.p, first, past) && MessagesFrom(s.messages, first, past) && ApprovalsFrom(s.approvals, past) &&
    GrantsFrom(s, first, past) && TasksFrom(s.tasks, past)
  }

  // ------------------------------------------------------------ a longer log

  lemma More(past: seq<Tx>, tx: Tx, first: Permission)
    ensures Sent(past + [tx]) == Sent(past) + (if tx.entry.CreateMessage? then 1 else 0)
    ensures Asked(past + [tx]) == Asked(past) + (if tx.entry.RequestApproval? then 1 else 0)
    ensures Turns(past + [tx]) == Turns(past) + (if tx.entry.Update? || tx.entry.Revoke? then 1 else 0)
    ensures var all := past + [tx];
      all[|past|] == tx && all[..|past|] == past &&
      forall j {:trigger all[j]} :: 0 <= j < |past| ==> all[j] == past[j]
  {
    assert (past + [tx])[..|past|] == past;
  }

  lemma Prefix(past: seq<Tx>, tx: Tx, j: nat)
    requires j <= |past|
    ensures (past + [tx])[..j] == past[..j]
  {
  }

  lemma TermsStep(s: State, tx: Tx, first: Permission, past: seq<Tx>)
    requires TermsFrom(s.p, first, past) && Commits(s, tx).Done?
    ensures TermsFrom(Commits(s, tx).state.p, first, past + [tx])
  {
    More(past, tx, first);
    PermissionFrame(s, tx);
  }

  /** Only an update sets terms, only a revocation revokes, and both advance the version. */
  lemma PermissionFrame(s: State, tx: Tx)
    requires Commits(s, tx).Done?
    ensures var p, q, e := s.p, Commits(s, tx).state.p, tx.entry;
      if e.Update? then
        q.version == p.version + 1 && q.actions == e.actions && q.boundary == e.boundary && q.maxCalls == e.maxCalls &&
        q.limit == e.limit && q.expires == e.expires && !q.revoked
      else
        SameTerms(q, if e.Revoke? then p.(revoked := true) else p) &&
          q.version == p.version + (if e.Revoke? then 1 else 0)
  {
    if MovesTask(tx.entry) {
      MovesOne(s, tx);
    } else if tx.entry.PrepareTask? {
      var e := tx.entry;
      PrepareFrame(s, e.message, e.grant, e.basis, e.order, tx.now, tx.workspace);
    }
  }

  lemma MessageMore(msg: Message, m: nat, first: Permission, past: seq<Tx>, tx: Tx)
    requires MessageTraced(msg, m, first, past)
    ensures MessageTraced(msg, m, first, past + [tx])
  {
    var all := past + [tx];
    var j: nat :| j < |past| && past[j].entry.CreateMessage? && Sent(past[..j]) == m &&
      msg == Message(first.version + Turns(past[..j]), past[j].entry.token, past[j].entry.action,
        past[j].entry.boundary,
        past[j].entry.amount, past[j].entry.expires);
    Prefix(past, tx, j);
    assert all[j] == past[j];
  }

  /** Messages are only ever added, as asked. */
  lemma MessageFrame(s: State, tx: Tx)
    requires Commits(s, tx).Done?
    ensures var e := tx.entry;
      Commits(s, tx).state.messages == s.messages +
        (if e.CreateMessage? then [Message(s.p.version, e.token, e.action, e.boundary, e.amount, e.expires)] else [])
  {
    if tx.entry.PrepareTask? {
      var e := tx.entry;
      PrepareFrame(s, e.message, e.grant, e.basis, e.order, tx.now, tx.workspace);
    }
  }

  lemma MessagesStep(s: State, tx: Tx, first: Permission, past: seq<Tx>)
    requires Traced(s, first, past) && Commits(s, tx).Done?
    ensures MessagesFrom(Commits(s, tx).state.messages, first, past + [tx])
  {
    More(past, tx, first);
    MessageFrame(s, tx);
    var messages := Commits(s, tx).state.messages;
    forall m | 0 <= m < |messages| ensures MessageTraced(messages[m], m, first, past + [tx]) {
      if m < |s.messages| {
        assert MessageTraced(s.messages[m], m, first, past);
        MessageMore(s.messages[m], m, first, past, tx);
      } else {
        assert (past + [tx])[|past|] == tx && (past + [tx])[..|past|] == past;
      }
    }
  }

  lemma DecisionMore(past: seq<Tx>, tx: Tx, a: nat, approve: bool)
    ensures Decided(past, a, approve) || tx.entry == Decide(a, approve) ==> Decided(past + [tx], a, approve)
    ensures SpentOn(past, a) || (tx.entry.PrepareTask? && tx.entry.basis == Some(a)) ==> SpentOn(past + [tx], a)
  {
    var all := past + [tx];
    assert all[|past|] == tx;
    if Decided(past, a, approve) {
      var j: nat :| j < |past| && past[j].entry == Decide(a, approve);
      assert all[j] == past[j];
    }
    if SpentOn(past, a) {
      var j: nat :| j < |past| && past[j].entry.PrepareTask? && past[j].entry.basis == Some(a);
      assert all[j] == past[j];
    }
  }

  /** Approvals are only added, decided as answered, and consumed by a preparation on them. */
  lemma ApprovalFrame(s: State, tx: Tx, a: nat)
    requires Commits(s, tx).Done? && a < |s.approvals|
    ensures a < |Commits(s, tx).state.approvals|
    ensures var x, y, e := s.approvals[a], Commits(s, tx).state.approvals[a], tx.entry;
      y.message == x.message && y.revision == x.revision && y.version == x.version && y.expires == x.expires &&
      (y.state == x.state || (e == Decide(a, true) && y.state.Granted?) || (e == Decide(a, false) && y.state.Denied?) ||
       (e.PrepareTask? && e.basis == Some(a) && x.state.Granted? && y.state.Consumed?))
  {
    if MovesTask(tx.entry) {
      MovesOne(s, tx);
    } else if tx.entry.PrepareTask? {
      var e := tx.entry;
      PrepareFrame(s, e.message, e.grant, e.basis, e.order, tx.now, tx.workspace);
    }
  }

  lemma ApprovalCount(s: State, tx: Tx)
    requires Commits(s, tx).Done?
    ensures var all, e := Commits(s, tx).state.approvals, tx.entry;
      |all| == |s.approvals| + (if e.RequestApproval? then 1 else 0) &&
      (e.RequestApproval? ==> (
        all[|s.approvals|].message == e.message && all[|s.approvals|].state.Pending? &&
        all[|s.approvals|].revision == tx.workspace.revision))
  {
    if MovesTask(tx.entry) {
      MovesOne(s, tx);
    } else if tx.entry.PrepareTask? {
      var e := tx.entry;
      PrepareFrame(s, e.message, e.grant, e.basis, e.order, tx.now, tx.workspace);
    }
  }

  lemma AskedMore(past: seq<Tx>, tx: Tx, m: nat, revision: nat, a: nat)
    requires AskedBy(past, m, revision, a)
    ensures AskedBy(past + [tx], m, revision, a)
  {
    var j: nat :| j < |past| && past[j].entry == RequestApproval(m) && Asked(past[..j]) == a &&
      past[j].workspace.revision == revision;
    Prefix(past, tx, j);
    assert (past + [tx])[j] == past[j];
  }

  lemma ApprovalStep(s: State, tx: Tx, past: seq<Tx>, a: nat)
    requires Commits(s, tx).Done? && a < |s.approvals| && ApprovalTraced(s.approvals[a], a, past)
    ensures a < |Commits(s, tx).state.approvals| && ApprovalTraced(Commits(s, tx).state.approvals[a], a, past + [tx])
  {
    ApprovalFrame(s, tx, a);
    AskedMore(past, tx, s.approvals[a].message, s.approvals[a].revision, a);
    DecisionMore(past, tx, a, true);
    DecisionMore(past, tx, a, false);
  }

  lemma ApprovalsStep(s: State, tx: Tx, first: Permission, past: seq<Tx>)
    requires Traced(s, first, past) && Commits(s, tx).Done?
    ensures ApprovalsFrom(Commits(s, tx).state.approvals, past + [tx])
  {
    More(past, tx, first);
    ApprovalCount(s, tx);
    var approvals := Commits(s, tx).state.approvals;
    forall a | 0 <= a < |approvals| ensures ApprovalTraced(approvals[a], a, past + [tx]) {
      if a < |s.approvals| {
        assert ApprovalTraced(s.approvals[a], a, past);
        ApprovalStep(s, tx, past, a);
      } else {
        assert (past + [tx])[|past|] == tx && (past + [tx])[..|past|] == past;
      }
    }
  }

  lemma GrantMore(past: seq<Tx>, tx: Tx, first: Permission, version: nat, x: nat, a: nat, limit: nat, b: nat)
    ensures StandingBy(past, version, x) || tx.entry == IssueStanding(version, x) ==>
      StandingBy(past + [tx], version, x)
    ensures ApprovedBy(past, a) || tx.entry == IssueApproved(a) ==> ApprovedBy(past + [tx], a)
    ensures TermsWere(first, past, limit, b) ==> TermsWere(first, past + [tx], limit, b)
  {
    var all := past + [tx];
    assert all[|past|] == tx;
    if StandingBy(past, version, x) {
      var j: nat :| j < |past| && past[j].entry == IssueStanding(version, x);
      assert all[j] == past[j];
    }
    if ApprovedBy(past, a) {
      var j: nat :| j < |past| && past[j].entry == IssueApproved(a);
      assert all[j] == past[j];
    }
    if TermsWere(first, past, limit, b) {
      var j: nat :| j <= |past| && Terms(first, past[..j]).limit == limit && Terms(first, past[..j]).boundary == b;
      Prefix(past, tx, j);
      assert Terms(first, all[..j]).limit == limit;
    }
  }

  ghost predicate SameGrant(x: Grant, y: Grant) {
    y.approval == x.approval && y.boundary == x.boundary && y.maxUses == x.maxUses && y.maxBudget == x.maxBudget &&
    y.expires == x.expires && y.version == x.version
  }

  lemma RevokedMore(past: seq<Tx>, tx: Tx, g: nat)
    ensures GrantRevokedBy(past, g) || tx.entry == RevokeGrant(g) ==> GrantRevokedBy(past + [tx], g)
  {
    var all := past + [tx];
    assert all[|past|] == tx;
    if GrantRevokedBy(past, g) {
      var j: nat :| j < |past| && past[j].entry == RevokeGrant(g);
      assert all[j] == past[j];
    }
  }

  lemma GrantUnderMoves(s: State, tx: Tx, g: nat)
    requires MovesTask(tx.entry) && Commits(s, tx).Done? && g < |s.grants|
    ensures g < |Commits(s, tx).state.grants| && SameGrant(s.grants[g], Commits(s, tx).state.grants[g])
    ensures Commits(s, tx).state.grants[g].revoked <==> s.grants[g].revoked || tx.entry == RevokeGrant(g)
  {
  }

  lemma GrantUnderSetup(s: State, tx: Tx, g: nat)
    requires !MovesTask(tx.entry) && !tx.entry.PrepareTask? && Commits(s, tx).Done? && g < |s.grants|
    ensures g < |Commits(s, tx).state.grants| && SameGrant(s.grants[g], Commits(s, tx).state.grants[g])
    ensures Commits(s, tx).state.grants[g].revoked <==> s.grants[g].revoked || tx.entry == RevokeGrant(g)
  {
  }

  /** The terms of a grant never change after it was issued. */
  lemma GrantFrame(s: State, tx: Tx, g: nat)
    requires Commits(s, tx).Done? && g < |s.grants|
    ensures g < |Commits(s, tx).state.grants| && SameGrant(s.grants[g], Commits(s, tx).state.grants[g])
    ensures Commits(s, tx).state.grants[g].revoked <==> s.grants[g].revoked || tx.entry == RevokeGrant(g)
  {
    if tx.entry.PrepareTask? {
      var e := tx.entry;
      PrepareFrame(s, e.message, e.grant, e.basis, e.order, tx.now, tx.workspace);
    } else if MovesTask(tx.entry) {
      GrantUnderMoves(s, tx, g);
    } else {
      GrantUnderSetup(s, tx, g);
    }
  }

  /** A new grant, and what it is issued with. */
  lemma GrantCount(s: State, tx: Tx)
    requires Commits(s, tx).Done?
    ensures var all, e := Commits(s, tx).state.grants, tx.entry;
      if e.IssueStanding? then
        |all| == |s.grants| + 1 && all[|s.grants|].approval.None? && all[|s.grants|].maxUses == 10_000 &&
        all[|s.grants|].maxBudget == s.p.limit && all[|s.grants|].expires == e.expires &&
        all[|s.grants|].boundary == s.p.boundary && all[|s.grants|].version == e.expected && !all[|s.grants|].revoked
      else if e.IssueApproved? then
        |all| == |s.grants| + 1 && e.approval < |s.approvals| && s.approvals[e.approval].message < |s.messages| &&
        all[|s.grants|].approval == Some(e.approval) && all[|s.grants|].maxUses == 1 &&
        all[|s.grants|].maxBudget == s.messages[s.approvals[e.approval].message].amount &&
        all[|s.grants|].boundary == s.messages[s.approvals[e.approval].message].boundary &&
        all[|s.grants|].version == s.approvals[e.approval].version &&
        all[|s.grants|].expires == s.approvals[e.approval].expires && !all[|s.grants|].revoked
      else |all| == |s.grants|
  {
    if tx.entry.PrepareTask? {
      var e := tx.entry;
      PrepareFrame(s, e.message, e.grant, e.basis, e.order, tx.now, tx.workspace);
    }
  }

  lemma GrantKept(s: State, tx: Tx, first: Permission, past: seq<Tx>, g: nat)
    requires Commits(s, tx).Done? && g < |s.grants| && GrantTraced(s.grants[g], g, s, first, past)
    ensures g < |Commits(s, tx).state.grants| && GrantTraced(Commits(s, tx).state.grants[g], g, Commits(s, tx).state,
      first, past + [tx])
  {
    GrantFrame(s, tx, g);
    MessageFrame(s, tx);
    var x := s.grants[g];
    RevokedMore(past, tx, g);
    GrantMore(past, tx, first, x.version, x.expires, if x.approval.Some? then x.approval.value
      else 0, x.maxBudget, x.boundary);
    if x.approval.Some? {
      ApprovalFrame(s, tx, x.approval.value);
    }
  }

  lemma GrantNew(s: State, tx: Tx, first: Permission, past: seq<Tx>)
    requires Commits(s, tx).Done? && (tx.entry.IssueStanding? || tx.entry.IssueApproved?) && TermsFrom(s.p, first, past)
    ensures var s' := Commits(s, tx).state;
      |s'.grants| == |s.grants| + 1 && GrantTraced(s'.grants[|s.grants|], |s.grants|, s', first, past + [tx])
  {
    GrantCount(s, tx);
    MessageFrame(s, tx);
    var g := Commits(s, tx).state.grants[|s.grants|];
    if tx.entry.IssueStanding? {
      assert past[..|past|] == past;
      assert TermsWere(first, past, s.p.limit, s.p.boundary);
      GrantMore(past, tx, first, g.version, g.expires, 0, g.maxBudget, g.boundary);
    } else {
      ApprovalFrame(s, tx, tx.entry.approval);
      GrantMore(past, tx, first, g.version, g.expires, tx.entry.approval, g.maxBudget, g.boundary);
    }
  }

  lemma GrantsStep(s: State, tx: Tx, first: Permission, past: seq<Tx>)
    requires Traced(s, first, past) && Commits(s, tx).Done?
    ensures GrantsFrom(Commits(s, tx).state, first, past + [tx])
  {
    GrantCount(s, tx);
    var s' := Commits(s, tx).state;
    forall g | 0 <= g < |s'.grants| ensures GrantTraced(s'.grants[g], g, s', first, past + [tx]) {
      if g < |s.grants| {
        assert GrantTraced(s.grants[g], g, s, first, past);
        GrantKept(s, tx, first, past, g);
      } else {
        GrantNew(s, tx, first, past);
      }
    }
  }

  // ------------------------------------------------------------ Runs

  lemma TaskFactsMore(past: seq<Tx>, tx: Tx, t: nat, task: Task)
    ensures PreparedBy(past, task) || tx.entry == PrepareTask(task.message, task.grant, task.approval, task.order) ==>
      PreparedBy(past + [tx], task)
    ensures BegunBy(past, t) || tx.entry == BeginTask(t) ==> BegunBy(past + [tx], t)
    ensures StoppedBy(past, t) || tx.entry == StopTask(t) ==> StoppedBy(past + [tx], t)
  {
    var all := past + [tx];
    assert all[|past|] == tx;
    if PreparedBy(past, task) {
      var j: nat :| j < |past| && past[j].entry == PrepareTask(task.message, task.grant, task.approval, task.order);
      assert all[j] == past[j];
    }
    if BegunBy(past, t) {
      var j: nat :| j < |past| && past[j].entry == BeginTask(t);
      assert all[j] == past[j];
    }
    if StoppedBy(past, t) {
      var j: nat :| j < |past| && past[j].entry == StopTask(t);
      assert all[j] == past[j];
    }
  }

  lemma FinishedMore(past: seq<Tx>, tx: Tx, t: nat, state: RunState, spent: nat)
    ensures FinishedBy(past, t, state, spent) ==> FinishedBy(past + [tx], t, state, spent)
    ensures tx.entry.FinishTask? && tx.entry.task == t && tx.entry.final == state && tx.entry.spent == spent ==>
      FinishedBy(past + [tx], t, state, spent)
  {
    var all := past + [tx];
    assert all[|past|] == tx;
    if FinishedBy(past, t, state, spent) {
      var j: nat :| j < |past| && past[j].entry.FinishTask? && past[j].entry.task == t &&
        past[j].entry.final == state &&
        past[j].entry.spent == spent;
      assert all[j] == past[j];
    }
  }

  lemma TaskKept(task: Task, t: nat, past: seq<Tx>, tx: Tx)
    requires TaskTraced(task, t, past)
    ensures TaskTraced(task, t, past + [tx])
  {
    TaskFactsMore(past, tx, t, task);
    FinishedMore(past, tx, t, task.state, task.claim.spent);
  }

  /** How an entry for a Run moves it: it begins, is asked to stop or cancelled, or ends as its Host reported. */
  ghost predicate MovedAs(task: Task, task': Task, e: Entry) {
    task' == task.(state := task'.state, stop := task'.stop, cursor := task'.cursor, claim := task'.claim) &&
    match e
    case BeginTask(_) => task'.state.Running? && task'.stop == task.stop && task'.claim == task.claim
    case StopTask(_) => (
      task'.stop && if task.state.Queued? then task'.state.Cancelled? && task'.claim.spent == 0 && task'.claim.settled
      else task.state.Running? && task'.state.Running? && task'.claim == task.claim)
    case FinishTask(_, final, _, spent) => (
      task.state.Running? && task'.state == final && !final.Queued? && !final.Running? && task'.stop == task.stop &&
      if final.NeedsConfirmation? then spent == 0 && task'.claim == task.claim
      else task'.claim.spent == spent && task'.claim.settled)
    case _ => false
  }

  lemma MovesAs(s: State, tx: Tx)
    requires MovesTask(tx.entry) && Commits(s, tx).Done?
    ensures tx.entry.task < |s.tasks| == |Commits(s, tx).state.tasks|
    ensures MovedAs(s.tasks[tx.entry.task], Commits(s, tx).state.tasks[tx.entry.task], tx.entry)
  {
  }

  lemma TaskMoved(task: Task, task': Task, t: nat, tx: Tx, past: seq<Tx>)
    requires MovesTask(tx.entry) && tx.entry.task == t && MovedAs(task, task', tx.entry) && TaskTraced(task, t, past)
    requires task.state.Running? ==> task.claim.spent == 0
    ensures TaskTraced(task', t, past + [tx])
  {
    TaskFactsMore(past, tx, t, task);
    PreparedSame(past + [tx], task, task');
    FinishedMore(past, tx, t, task'.state, task'.claim.spent);
  }

  lemma PreparedSame(past: seq<Tx>, task: Task, task': Task)
    requires task'.message == task.message && task'.grant == task.grant && task'.approval == task.approval &&
      task'.order == task.order
    ensures PreparedBy(past, task) ==> PreparedBy(past, task')
  {
  }

  lemma TaskFrame(s: State, tx: Tx, t: nat)
    requires Commits(s, tx).Done? && t < |Commits(s, tx).state.tasks| && !(MovesTask(tx.entry) && tx.entry.task == t)
    ensures t < |s.tasks| ==> Commits(s, tx).state.tasks[t] == s.tasks[t]
    ensures t >= |s.tasks| ==> tx.entry.PrepareTask? && IsNewTask(Commits(s, tx).state.tasks[t], tx.entry)
  {
    if MovesTask(tx.entry) {
      MovesOne(s, tx);
    } else if tx.entry.PrepareTask? {
      var e := tx.entry;
      PrepareFrame(s, e.message, e.grant, e.basis, e.order, tx.now, tx.workspace);
    } else {
      SetupFrame(s, tx);
    }
  }

  ghost predicate IsNewTask(t: Task, e: Entry)
    requires e.PrepareTask?
  {
    t.message == e.message && t.grant == e.grant && t.approval == e.basis && t.order == e.order &&
    t.state.Queued? && !t.stop && t.claim.spent == 0
  }

  lemma TasksStep(s: State, tx: Tx, first: Permission, past: seq<Tx>)
    requires Sound(s) && Traced(s, first, past) && Commits(s, tx).Done?
    ensures TasksFrom(Commits(s, tx).state.tasks, past + [tx])
  {
    var tasks := Commits(s, tx).state.tasks;
    forall t | 0 <= t < |tasks| ensures TaskTraced(tasks[t], t, past + [tx]) {
      if MovesTask(tx.entry) && tx.entry.task == t {
        MovesAs(s, tx);
        assert TaskInv(s, t) && TaskTraced(s.tasks[t], t, past);
        TaskMoved(s.tasks[t], tasks[t], t, tx, past);
      } else {
        TaskFrame(s, tx, t);
        if t < |s.tasks| {
          assert TaskTraced(s.tasks[t], t, past);
          TaskKept(s.tasks[t], t, past, tx);
        } else {
          TaskFactsMore(past, tx, t, tasks[t]);
        }
      }
    }
  }

  // ------------------------------------------------------------ theorems

  lemma NextTraced(s: State, tx: Tx, first: Permission, past: seq<Tx>)
    requires Sound(s) && Traced(s, first, past)
    ensures Traced(Next(s, tx), first, past + Now(s, tx))
  {
    if Commits(s, tx).Done? {
      TermsStep(s, tx, first, past);
      MessagesStep(s, tx, first, past);
      ApprovalsStep(s, tx, first, past);
      GrantsStep(s, tx, first, past);
      TasksStep(s, tx, first, past);
    } else {
      assert past + [] == past;
    }
  }

  lemma LogCons(s: State, txs: seq<Tx>, past: seq<Tx>)
    requires txs != []
    ensures past + Log(s, txs) == past + Now(s, txs[0]) + Log(Next(s, txs[0]), txs[1..])
  {
    var now, rest := Now(s, txs[0]), Log(Next(s, txs[0]), txs[1..]);
    assert Log(s, txs) == now + rest;
    Associative(past, now, rest);
  }

  lemma {:induction false} TransactTraced(s: State, txs: seq<Tx>, first: Permission, past: seq<Tx>)
    requires Sound(s) && Traced(s, first, past)
    ensures Traced(Transact(s, txs), first, past + Log(s, txs))
    decreases |txs|
  {
    if txs == [] {
      assert past + Log(s, txs) == past;
    } else {
      var s', past' := Next(s, txs[0]), past + Now(s, txs[0]);
      NextSound(s, txs[0]);
      NextTraced(s, txs[0], first, past);
      TransactTraced(s', txs[1..], first, past');
      LogCons(s, txs, past);
    }
  }

  /** After every run from a fresh permission: the terms in force are those of the latest update, and messages,
      approvals, grants and Runs are exactly what committed transactions wrote, asked, decided, issued, prepared and
      reported. */
  lemma EverythingIsOnRecord(s: State, txs: seq<Tx>)
    requires Fresh(s)
    ensures Sound(Transact(s, txs)) && Traced(Transact(s, txs), s.p, Log(s, txs))
  {
    FreshSound(s);
    TransactSound(s, txs);
    TransactTraced(s, txs, s.p, []);
    assert [] + Log(s, txs) == Log(s, txs);
  }

  /** Nothing on record was done without authority: every transaction that committed was authorized. */
  lemma {:induction false} OnlyAuthorizedCommits(s: State, txs: seq<Tx>)
    ensures forall j :: 0 <= j < |Log(s, txs)| ==> Log(s, txs)[j].authorized
    decreases |txs|
  {
    if txs != [] {
      OnlyAuthorizedCommits(Next(s, txs[0]), txs[1..]);
    }
  }

  /** An approval that was granted or consumed has a recorded yes, a denied one a recorded no, and every Run on an
      approval has a recorded yes for that very message. */
  lemma NoRunWithoutAYes(s: State, txs: seq<Tx>, a: nat, t: nat)
    requires Fresh(s)
    ensures var s', past := Transact(s, txs), Log(s, txs);
      (a < |s'.approvals| && (s'.approvals[a].state.Granted? || s'.approvals[a].state.Consumed?) ==>
        Decided(past, a, true)) &&
      (a < |s'.approvals| && s'.approvals[a].state.Denied? ==> Decided(past, a, false)) &&
      (t < |s'.tasks| && s'.tasks[t].approval.Some? ==>
        var b := s'.tasks[t].approval.value;
        b < |s'.approvals| && Decided(past, b, true) &&
        AskedBy(past, s'.tasks[t].message, s'.approvals[b].revision, b)) &&
      (a < |s'.approvals| ==>
        s'.approvals[a].message < |s'.messages| &&
        s'.approvals[a].expires == s'.messages[s'.approvals[a].message].expires)
  {
    EverythingIsOnRecord(s, txs);
    var s', past := Transact(s, txs), Log(s, txs);
    if a < |s'.approvals| {
      assert ApprovalTraced(s'.approvals[a], a, past) && ApprovalInv(s', a);
    }
    if t < |s'.tasks| && s'.tasks[t].approval.Some? {
      assert TaskInv(s', t);
      assert ApprovalTraced(s'.approvals[s'.tasks[t].approval.value], s'.tasks[t].approval.value, past);
    }
  }

  // ------------------------------------------------------------ which result names are taken

  /** The transaction takes the result name of this intent: a saved result, or the finish of a Run for it. */
  predicate Taking(s: State, tx: Tx, intent: nat) {
    tx.entry == SaveResult(intent) ||
    (tx.entry.FinishTask? && tx.entry.task < |s.tasks| && s.tasks[tx.entry.task].order.intent == intent)
  }

  lemma NameStep(s: State, tx: Tx, intent: nat)
    ensures intent in Next(s, tx).results <==>
      intent in s.results || (Commits(s, tx).Done? && Taking(s, tx, intent))
  {
    if Commits(s, tx).Done? && tx.entry.PrepareTask? {
      var e := tx.entry;
      PrepareFrame(s, e.message, e.grant, e.basis, e.order, tx.now, tx.workspace);
    }
  }

  /** Transaction `k` of a run, judged after the `k` before it, commits and takes the name. */
  ghost predicate TakesName(s: State, txs: seq<Tx>, k: nat, intent: nat) {
    k < |txs| && Commits(Transact(s, txs[..k]), txs[k]).Done? && Taking(Transact(s, txs[..k]), txs[k], intent)
  }

  lemma TakesLater(s: State, txs: seq<Tx>, k: nat, intent: nat)
    requires txs != []
    ensures TakesName(s, txs, k + 1, intent) <==> TakesName(Next(s, txs[0]), txs[1..], k, intent)
  {
    if k + 1 < |txs| {
      assert txs[..k + 1][1..] == txs[1..][..k];
    }
  }

  /** A result name is taken exactly when it was at the start or a committed transaction took it. */
  lemma {:induction false} NameTakenByCommit(s: State, txs: seq<Tx>, intent: nat)
    ensures intent in Transact(s, txs).results <==>
      intent in s.results || exists k: nat :: TakesName(s, txs, k, intent)
    decreases |txs|
  {
    if txs != [] {
      NameStep(s, txs[0], intent);
      NameTakenByCommit(Next(s, txs[0]), txs[1..], intent);
      assert txs[..0] == [];
      assert TakesName(s, txs, 0, intent) <==> Commits(s, txs[0]).Done? && Taking(s, txs[0], intent);
      if k: nat :| TakesName(Next(s, txs[0]), txs[1..], k, intent) {
        TakesLater(s, txs, k, intent);
        assert TakesName(s, txs, k + 1, intent);
      }
      if k: nat :| TakesName(s, txs, k, intent) && k > 0 {
        TakesLater(s, txs, k - 1, intent);
        assert TakesName(Next(s, txs[0]), txs[1..], k - 1, intent);
      }
    }
  }
}
