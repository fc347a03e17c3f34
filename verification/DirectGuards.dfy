/** Exactly when each entry of the standing permission commits, spelled out for sound states. */
module DirectGuards {
  import opened Common
  import opened OkrProtocol
  import opened DirectPermission

  /** New terms: on the current version, at most 1000 calls within the limit, at most thirty days, and a limit that
      covers what the ordinary ledger has spent and holds. */
  lemma UpdateExactly(s: State, e: Entry, now: nat)
    requires e.Update?
    ensures DoUpdate(s, e, now).Done? <==> (
      s.p.version == e.expected && e.maxCalls <= 1000 && e.maxCalls <= e.limit &&
      now < e.expires <= now + 30 * 24 * 60 * 60 * 1000 && s.p.spent + s.p.reserved <= e.limit)
  {
  }

  /** A message: on the current, unrevoked, unexpired terms, for at most five minutes, under a new token; asking and
      status cost nothing, files cost between one and a thousand calls. */
  lemma MessageExactly(s: State, e: Entry, now: nat)
    requires e.CreateMessage?
    ensures DoCreateMessage(s, e, now).Done? <==> (
      !s.p.revoked && now < s.p.expires && s.p.version == e.expected && 1 <= |e.token| <= 64 &&
      (if e.action.Ask? || e.action.Status? then e.amount == 0 else 1 <= e.amount <= 1000) &&
      now < e.expires <= now + 5 * 60 * 1000 && e.expires <= s.p.expires &&
      forall m :: 0 <= m < |s.messages| ==> s.messages[m].token != e.token)
  {
  }

  /** The standing terms cover a message: its action and boundary, its amount per message and within what is left of
      the limit, and writes only into a fully known workspace nobody else protects. */
  ghost predicate Covered(p: Permission, m: Message, ws: Workspace) {
    m.action in p.actions && m.boundary == p.boundary && m.amount <= p.maxCalls &&
    p.spent + p.reserved + m.amount <= p.limit && (m.action == FileWrite ==> ws.complete && !ws.protected)
  }

  /** An approval is asked for exactly when the standing terms do not cover the message, once, and before any Run of
      it. */
  lemma AskExactly(s: State, m: nat, now: nat, ws: Workspace)
    requires Sound(s) && m < |s.messages|
    ensures DoRequestApproval(s, m, now, ws).Done? <==> (
      !s.p.revoked && now < s.p.expires && s.messages[m].version == s.p.version && now < s.messages[m].expires &&
      !Covered(s.p, s.messages[m], ws) && (forall a :: 0 <= a < |s.approvals| ==> s.approvals[a].message != m) &&
      (forall t :: 0 <= t < |s.tasks| ==> s.tasks[t].message != m))
  {
    if m in s.approvalOf {
      assert s.approvals[s.approvalOf[m]].message == m;
    }
    if m in s.taskOf {
      assert s.tasks[s.taskOf[m]].message == m;
    }
    forall a | 0 <= a < |s.approvals| && s.approvals[a].message == m ensures m in s.approvalOf {
      assert ApprovalInv(s, a);
    }
    forall t | 0 <= t < |s.tasks| && s.tasks[t].message == m ensures m in s.taskOf {
      assert TaskInv(s, t);
    }
  }

  /** A pending approval of a current message may be decided until it expires; a yes to a write needs the workspace
      it was asked for. */
  lemma DecideExactly(s: State, a: nat, approve: bool, now: nat, ws: Workspace)
    requires Sound(s) && a < |s.approvals|
    ensures var ap := s.approvals[a];
      ap.message < |s.messages| &&
      (DoDecide(s, a, approve, now, ws).Done? <==> (
        !s.p.revoked && now < s.p.expires && ap.version == s.p.version && now < s.messages[ap.message].expires &&
        now < ap.expires && ap.state == Pending &&
        (approve && s.messages[ap.message].action == FileWrite ==> ws.complete && ws.revision == ap.revision)))
    ensures DoDecide(s, a, approve, now, ws).Done? ==>
      DoDecide(s, a, approve, now, ws).state.approvals[a].state == (if approve then Granted else Denied)
  {
    assert ApprovalInv(s, a);
  }

  /** A standing grant is issued exactly under the current, unrevoked terms, and ends no later than they do; an approved
      one exactly for a granted approval that is still valid; a grant and the terms are revoked once. */
  lemma IssueExactly(s: State, version: nat, expires: nat, a: nat, g: nat, now: nat, ws: Workspace)
    requires Sound(s)
    ensures Commits(s, Tx(IssueStanding(version, expires), true, now, ws)).Done? <==>
      s.p.version == version && !s.p.revoked && now < expires <= s.p.expires
    ensures a < |s.approvals| ==> (
      var ap := s.approvals[a];
      ap.message < |s.messages| &&
      (Commits(s, Tx(IssueApproved(a), true, now, ws)).Done? <==> (
        ap.state == Granted && ap.version == s.p.version && !s.p.revoked && now < s.p.expires && now < ap.expires &&
        (s.messages[ap.message].action == FileWrite ==> ws.complete && ws.revision == ap.revision))))
    ensures Commits(s, Tx(RevokeGrant(g), true, now, ws)).Done? <==> g < |s.grants| && !s.grants[g].revoked
    ensures Commits(s, Tx(Revoke(version), true, now, ws)).Done? <==> s.p.version == version && !s.p.revoked
  {
    if a < |s.approvals| {
      assert ApprovalInv(s, a);
    }
  }

  /** What every new Run needs: current terms and message, a live grant for this path and boundary, a command of at
      most five minutes inside message and grant, unused identifiers, a use and the amount left on the grant, and no
      Run of the message yet. */
  ghost predicate MayStart(s: State, m: nat, g: nat, basis: Option<nat>, order: Order, now: nat)
    requires m < |s.messages| && g < |s.grants|
  {
    var msg, grant := s.messages[m], s.grants[g];
    !s.p.revoked && now < s.p.expires && msg.version == s.p.version && now < msg.expires &&
    grant.version == s.p.version && grant.approval == basis && grant.boundary == msg.boundary && !grant.revoked &&
    0 < order.issued < order.expires <= order.issued + 5 * 60 * 1000 && now < order.expires <= grant.expires &&
    order.expires <= msg.expires && order.issued <= now + 30 * 1000 && now < grant.expires &&
    order.key !in grant.keys && order.nonce !in grant.nonces && order.intent !in grant.intents &&
    (grant.maxUses > 0 ==> grant.uses < grant.maxUses) && (msg.amount > 0 ==>
      grant.claimed + msg.amount <= grant.maxBudget) &&
    m !in s.taskOf
  }

  /** Without an approval a new Run starts exactly when the standing terms cover the message. */
  lemma OrdinaryExactly(s: State, m: nat, g: nat, order: Order, now: nat, ws: Workspace)
    requires m < |s.messages| && g < |s.grants| && order.id !in s.grants[g].commands
    ensures DoPrepareTask(s, m, g, None, order, now, ws).Done? <==>
      MayStart(s, m, g, None, order, now) && Covered(s.p, s.messages[m], ws)
  {
  }

  /** On an approval exactly when it was granted for this message under these terms, has not expired, and for a write
      the workspace is still the one it was asked for. */
  lemma ApprovedExactly(s: State, m: nat, g: nat, a: nat, order: Order, now: nat, ws: Workspace)
    requires Sound(s) && m < |s.messages| && g < |s.grants| && a < |s.approvals| && order.id !in s.grants[g].commands
    ensures DoPrepareTask(s, m, g, Some(a), order, now, ws).Done? <==> (
      MayStart(s, m, g, Some(a), order, now) && s.approvals[a].message == m && s.approvals[a].version == s.p.version &&
      s.approvals[a].state == Granted && now < s.approvals[a].expires &&
      (s.messages[m].action == FileWrite ==> ws.complete && ws.revision == s.approvals[a].revision))
  {
    assert ApprovalInv(s, a);
  }

  /** A Run starts exactly once, on the terms it was prepared under: still covered apart from the money it already
      holds, or still on its valid approval. */
  lemma BeginExactly(s: State, t: nat, now: nat, ws: Workspace)
    requires Sound(s) && t < |s.tasks|
    ensures var task := s.tasks[t];
      task.message < |s.messages| && task.grant < |s.grants| &&
      var msg, grant, p := s.messages[task.message], s.grants[task.grant], s.p;
      DoBeginTask(s, t, now, ws).Done? <==> (
        task.state == Queued && !p.revoked && now < p.expires && task.version == p.version && now < msg.expires &&
        now < task.order.expires && grant.version == p.version && grant.approval == task.approval &&
        grant.boundary == msg.boundary && grant.revision == task.revision && !grant.revoked && now < grant.expires &&
        (if task.approval.None? then
          msg.action in p.actions && msg.boundary == p.boundary && msg.amount <= p.maxCalls &&
          (msg.action == FileWrite ==> ws.complete && !ws.protected)
        else
          task.approval.value < |s.approvals| && now < s.approvals[task.approval.value].expires &&
          (msg.action == FileWrite ==> ws.complete && ws.revision == s.approvals[task.approval.value].revision)))
  {
    assert TaskInv(s, t);
    if s.tasks[t].approval.Some? {
      assert ApprovalInv(s, s.tasks[t].approval.value);
    }
  }
}
