/**
 * The replay indexes of a direct capability: in every run they hold exactly the identifiers of its Runs, so no two Runs
 * of a capability share any of them, and an order whose id is known commits exactly when it repeats its Run.
 */
module DirectReplay {
  import opened Common
  import opened OkrProtocol
  import opened DirectPermission

  ghost predicate Filed(g: Grant, o: Order, t: nat) {
    Maps(g.intents, o.intent, t) && Maps(g.commands, o.id, o.intent) && Maps(g.nonces, o.nonce, o.intent) &&
    Maps(g.keys, o.key, o.intent)
  }

  /** The index sends this intent to a Run of grant `i` for it. */
  ghost predicate RunFor(g: Grant, i: nat, tasks: seq<Task>, intent: nat) {
    intent in g.intents && g.intents[intent] < |tasks| && tasks[g.intents[intent]].grant == i &&
    tasks[g.intents[intent]].order.intent == intent
  }

  ghost function OrderFor(g: Grant, tasks: seq<Task>, intent: nat): Order
    requires intent in g.intents && g.intents[intent] < |tasks|
  {
    tasks[g.intents[intent]].order
  }

  ghost predicate GrantIndexed(g: Grant, i: nat, tasks: seq<Task>) {
    (forall t :: 0 <= t < |tasks| && tasks[t].grant == i ==> Filed(g, tasks[t].order, t)) &&
    (forall x :: x in g.intents ==> RunFor(g, i, tasks, x)) &&
    (forall x :: x in g.commands ==>
      RunFor(g, i, tasks, g.commands[x]) && OrderFor(g, tasks, g.commands[x]).id == x) &&
    (forall x :: x in g.nonces ==> RunFor(g, i, tasks, g.nonces[x]) && OrderFor(g, tasks, g.nonces[x]).nonce == x) &&
    (forall x :: x in g.keys ==> RunFor(g, i, tasks, g.keys[x]) && OrderFor(g, tasks, g.keys[x]).key == x)
  }

  ghost predicate Indexed(s: State) {
    (forall g :: 0 <= g < |s.grants| ==> GrantIndexed(s.grants[g], g, s.tasks)) &&
    (forall g :: 0 <= g < |s.grants| ==> s.grants[g].revision == if s.grants[g].revoked then 2 else 1) &&
    (forall t :: 0 <= t < |s.tasks| ==> s.tasks[t].grant < |s.grants|)
  }

  // ------------------------------------------------------------ every transaction keeps it

  ghost predicate SameIndex(g: Grant, g': Grant) {
    g'.intents == g.intents && g'.commands == g.commands && g'.nonces == g.nonces && g'.keys == g.keys
  }

  ghost predicate SameOrders(tasks: seq<Task>, tasks': seq<Task>) {
    |tasks'| == |tasks| &&
    forall t {:trigger tasks'[t]} :: 0 <= t < |tasks| ==>
      tasks'[t].grant == tasks[t].grant && tasks'[t].order == tasks[t].order
  }

  lemma IndexKept(g: Grant, g': Grant, i: nat, tasks: seq<Task>, tasks': seq<Task>)
    requires GrantIndexed(g, i, tasks) && SameIndex(g, g') && SameOrders(tasks, tasks')
    ensures GrantIndexed(g', i, tasks')
  {
  }

  lemma IndexOther(g: Grant, i: nat, tasks: seq<Task>, task: Task)
    requires GrantIndexed(g, i, tasks) && task.grant != i
    ensures GrantIndexed(g, i, tasks + [task])
  {
    assert forall x :: RunFor(g, i, tasks, x) ==>
      RunFor(g, i, tasks + [task], x) && OrderFor(g, tasks + [task], x) == OrderFor(g, tasks, x);
  }

  lemma IndexNew(g: Grant, g': Grant, i: nat, tasks: seq<Task>, task: Task)
    requires GrantIndexed(g, i, tasks) && task.grant == i
    requires var o := task.order;
      o.intent !in g.intents && o.id !in g.commands && o.nonce !in g.nonces && o.key !in g.keys &&
      g'.intents == g.intents[o.intent := |tasks|] && g'.commands == g.commands[o.id := o.intent] &&
      g'.nonces == g.nonces[o.nonce := o.intent] && g'.keys == g.keys[o.key := o.intent]
    ensures GrantIndexed(g', i, tasks + [task])
  {
    var tasks', o := tasks + [task], task.order;
    assert RunFor(g', i, tasks', o.intent) && OrderFor(g', tasks', o.intent) == o;
    forall t | 0 <= t < |tasks'| && tasks'[t].grant == i ensures Filed(g', tasks'[t].order, t) {
      assert t < |tasks| ==> Filed(g, tasks[t].order, t);
    }
    forall x | RunFor(g, i, tasks, x)
      ensures RunFor(g', i, tasks', x) && OrderFor(g', tasks', x) == OrderFor(g, tasks, x)
    {
      assert x != o.intent;
    }
  }

  lemma NewTaskIndexed(s: State, m: nat, g: nat, approval: Option<nat>, order: Order)
    requires Indexed(s) && m < |s.messages| && g < |s.grants| && (approval.Some? ==> approval.value < |s.approvals|)
    requires order.intent !in s.grants[g].intents && order.id !in s.grants[g].commands &&
      order.nonce !in s.grants[g].nonces && order.key !in s.grants[g].keys
    ensures Indexed(NewTask(s, m, g, approval, order))
  {
    var s' := NewTask(s, m, g, approval, order);
    var task := s'.tasks[|s.tasks|];
    assert s'.tasks == s.tasks + [task] && task.grant == g && task.order == order;
    forall i | 0 <= i < |s'.grants| ensures GrantIndexed(s'.grants[i], i, s'.tasks) {
      if i == g {
        IndexNew(s.grants[g], s'.grants[g], g, s.tasks, task);
      } else {
        IndexOther(s.grants[i], i, s.tasks, task);
      }
    }
  }

  /** A preparation that commits with an unknown id has no identifier in common with any earlier order. */
  lemma NewIsUnknown(s: State, m: nat, g: nat, approval: Option<nat>, order: Order, now: nat, ws: Workspace)
    requires DoPrepareTask(s, m, g, approval, order, now, ws).Done? && g < |s.grants|
    requires order.id !in s.grants[g].commands
    ensures order.intent !in s.grants[g].intents && order.nonce !in s.grants[g].nonces && order.key !in s.grants[g].keys
  {
  }

  lemma IndexedAfter(s: State, s': State)
    requires Indexed(s) && |s'.grants| == |s.grants| && SameOrders(s.tasks, s'.tasks)
    requires forall g {:trigger s'.grants[g]} :: 0 <= g < |s.grants| ==>
      SameIndex(s.grants[g], s'.grants[g]) && s'.grants[g].revision == if s'.grants[g].revoked then 2 else 1
    ensures Indexed(s')
  {
    forall g | 0 <= g < |s'.grants| ensures GrantIndexed(s'.grants[g], g, s'.tasks) {
      IndexKept(s.grants[g], s'.grants[g], g, s.tasks, s'.tasks);
    }
  }

  lemma SettleGrants(s: State, t: nat, spent: nat, state: RunState, stop: bool)
    requires t < |s.tasks| && SettleTask(s, t, spent, state, stop).Done?
    ensures GrantsKept(s, SettleTask(s, t, spent, state, stop).state)
  {
  }

  ghost predicate GrantsKept(s: State, s': State) {
    |s'.grants| == |s.grants| && SameOrders(s.tasks, s'.tasks) &&
    forall g {:trigger s'.grants[g]} :: 0 <= g < |s.grants| ==>
      SameIndex(s.grants[g], s'.grants[g]) && s'.grants[g].revision == s.grants[g].revision &&
      s'.grants[g].revoked == s.grants[g].revoked
  }

  lemma MovesKeep(s: State, tx: Tx)
    requires MovesTask(tx.entry) && Commits(s, tx).Done?
    ensures GrantsKept(s, Commits(s, tx).state)
  {
    var e := tx.entry;
    if e.StopTask? && e.task < |s.tasks| && s.tasks[e.task].state.Queued? {
      SettleGrants(s, e.task, 0, Cancelled, true);
    } else if e.FinishTask? && !e.final.NeedsConfirmation? {
      var s' := s.(results := s.results + {s.tasks[e.task].order.intent});
      SettleGrants(s', e.task, e.spent, e.final, s.tasks[e.task].stop);
    }
  }

  lemma MovesIndexed(s: State, tx: Tx)
    requires Indexed(s) && MovesTask(tx.entry) && Commits(s, tx).Done?
    ensures Indexed(Commits(s, tx).state)
  {
    MovesKeep(s, tx);
    IndexedAfter(s, Commits(s, tx).state);
  }

  lemma IssueIndexed(s: State, g: Grant)
    requires Indexed(s) && !g.revoked && g.revision == 1 && g.intents == g.commands == g.nonces == g.keys == map[]
    ensures Indexed(s.(grants := s.grants + [g]))
  {
    assert GrantIndexed(g, |s.grants|, s.tasks);
  }

  /** Whatever else commits leaves the Runs alone and at most issues one grant or revokes one. */
  lemma SetupGrants(s: State, tx: Tx)
    requires !MovesTask(tx.entry) && !tx.entry.PrepareTask? && Commits(s, tx).Done?
    ensures var s', e := Commits(s, tx).state, tx.entry;
      s'.tasks == s.tasks &&
      if e.IssueStanding? || e.IssueApproved? then
        |s'.grants| == |s.grants| + 1 && s'.grants == s.grants + [s'.grants[|s.grants|]] &&
        (var g := s'.grants[|s.grants|];
         !g.revoked && g.revision == 1 && g.intents == g.commands == g.nonces == g.keys == map[])
      else if e.RevokeGrant? then
        e.grant < |s.grants| && !s.grants[e.grant].revoked &&
        s'.grants == s.grants[e.grant := s.grants[e.grant].(revoked := true,
          revision := s.grants[e.grant].revision + 1)]
      else s'.grants == s.grants
  {
  }

  lemma SetupIndexed(s: State, tx: Tx)
    requires Indexed(s) && !MovesTask(tx.entry) && !tx.entry.PrepareTask? && Commits(s, tx).Done?
    ensures Indexed(Commits(s, tx).state)
  {
    SetupGrants(s, tx);
    var s' := Commits(s, tx).state;
    if tx.entry.IssueStanding? || tx.entry.IssueApproved? {
      IssueIndexed(s, s'.grants[|s.grants|]);
      SameRecords(s.(grants := s'.grants), s');
    } else {
      IndexedAfter(s, s');
    }
  }

  lemma SameRecords(s: State, s': State)
    requires Indexed(s) && s'.grants == s.grants && s'.tasks == s.tasks
    ensures Indexed(s')
  {
  }

  lemma NextIndexed(s: State, tx: Tx)
    requires Indexed(s)
    ensures Indexed(Next(s, tx))
  {
    if Commits(s, tx).Done? {
      if tx.entry.PrepareTask? {
        var e := tx.entry;
        PrepareFrame(s, e.message, e.grant, e.basis, e.order, tx.now, tx.workspace);
        if e.order.id !in s.grants[e.grant].commands {
          NewIsUnknown(s, e.message, e.grant, e.basis, e.order, tx.now, tx.workspace);
          NewTaskIndexed(s, e.message, e.grant, e.basis, e.order);
        }
      } else if MovesTask(tx.entry) {
        MovesIndexed(s, tx);
      } else {
        SetupIndexed(s, tx);
      }
    }
  }

  lemma {:induction false} TransactIndexed(s: State, txs: seq<Tx>)
    requires Indexed(s)
    ensures Indexed(Transact(s, txs))
    decreases |txs|
  {
    if txs != [] {
      NextIndexed(s, txs[0]);
      TransactIndexed(Next(s, txs[0]), txs[1..]);
    }
  }

  // ------------------------------------------------------------ theorems

  /** In every run, two Runs of one capability share no intent, no command id, no nonce and no idempotency key. */
  lemma OneRunPerIdentifier(s: State, txs: seq<Tx>, t: nat, u: nat)
    requires Fresh(s)
    ensures var tasks := Transact(s, txs).tasks;
      t < |tasks| && u < |tasks| && t != u && tasks[t].grant == tasks[u].grant ==>
        tasks[t].order.intent != tasks[u].order.intent && tasks[t].order.id != tasks[u].order.id &&
        tasks[t].order.nonce != tasks[u].order.nonce && tasks[t].order.key != tasks[u].order.key
  {
    TransactIndexed(s, txs);
    var s' := Transact(s, txs);
    if t < |s'.tasks| && u < |s'.tasks| && s'.tasks[t].grant == s'.tasks[u].grant {
      var g := s'.tasks[t].grant;
      assert GrantIndexed(s'.grants[g], g, s'.tasks);
      assert Filed(s'.grants[g], s'.tasks[t].order, t) && Filed(s'.grants[g], s'.tasks[u].order, u);
    }
  }

  /** A capability knows an identifier exactly when one of its Runs carries it. */
  lemma KnownExactly(s: State, txs: seq<Tx>, g: nat, x: nat)
    requires Fresh(s)
    ensures var s' := Transact(s, txs);
      var tasks := s'.tasks;
      g < |s'.grants| ==>
        (x in s'.grants[g].intents <==> exists t :: (
          0 <= t < |tasks| && tasks[t].grant == g && tasks[t].order.intent == x)) &&
        (x in s'.grants[g].commands <==> exists t :: (
          0 <= t < |tasks| && tasks[t].grant == g && tasks[t].order.id == x)) &&
        (x in s'.grants[g].nonces <==> exists t :: (
          0 <= t < |tasks| && tasks[t].grant == g && tasks[t].order.nonce == x)) &&
        (x in s'.grants[g].keys <==> exists t :: (
          0 <= t < |tasks| && tasks[t].grant == g && tasks[t].order.key == x))
  {
    TransactIndexed(s, txs);
    var s' := Transact(s, txs);
    if g < |s'.grants| {
      assert GrantIndexed(s'.grants[g], g, s'.tasks);
      forall t | 0 <= t < |s'.tasks| && s'.tasks[t].grant == g ensures Filed(s'.grants[g], s'.tasks[t].order, t) {
      }
    }
  }

  /** Run `t` was prepared with these very identifiers, for this message on this basis. */
  ghost predicate Repeats(s: State, t: nat, m: nat, g: nat, basis: Option<nat>, order: Order) {
    t < |s.tasks| && s.tasks[t].grant == g && s.tasks[t].message == m && s.tasks[t].approval == basis &&
    s.tasks[t].order.intent == order.intent && s.tasks[t].order.id == order.id &&
    s.tasks[t].order.nonce == order.nonce && s.tasks[t].order.key == order.key
  }

  /** The terms, the message, the grant and the command are all still current. */
  ghost predicate MayRepeat(s: State, m: nat, g: nat, basis: Option<nat>, order: Order, now: nat, ws: Workspace)
    requires m < |s.messages| && g < |s.grants|
  {
    var msg, grant := s.messages[m], s.grants[g];
    !s.p.revoked && now < s.p.expires && msg.version == s.p.version && now < msg.expires &&
    grant.version == s.p.version && grant.approval == basis && grant.boundary == msg.boundary && !grant.revoked &&
    0 < order.issued < order.expires <= order.issued + 5 * 60 * 1000 && now < order.expires <= grant.expires &&
    order.expires <= msg.expires && order.issued <= now + 30 * 1000 && now < grant.expires &&
    (basis.Some? ==>
      basis.value < |s.approvals| && now < s.approvals[basis.value].expires &&
      (msg.action == FileWrite ==> ws.complete && ws.revision == s.approvals[basis.value].revision))
  }

  lemma RepeatCommits(s: State, t: nat, m: nat, g: nat, basis: Option<nat>, order: Order, now: nat, ws: Workspace)
    requires Sound(s) && m < |s.messages| && g < |s.grants| && GrantIndexed(s.grants[g], g, s.tasks)
    requires Repeats(s, t, m, g, basis, order) && MayRepeat(s, m, g, basis, order, now, ws)
    ensures DoPrepareTask(s, m, g, basis, order, now, ws) == Done(s)
  {
    assert Filed(s.grants[g], s.tasks[t].order, t) && TaskInv(s, t);
    if basis.Some? {
      assert ApprovalInv(s, basis.value);
    }
  }

  lemma OnlyRepeats(s: State, m: nat, g: nat, basis: Option<nat>, order: Order, now: nat,
    ws: Workspace) returns (t: nat)
    requires Sound(s) && m < |s.messages| && g < |s.grants| && GrantIndexed(s.grants[g], g, s.tasks)
    requires order.id in s.grants[g].commands && DoPrepareTask(s, m, g, basis, order, now, ws).Done?
    ensures Repeats(s, t, m, g, basis, order) && MayRepeat(s, m, g, basis, order, now, ws)
  {
    t := s.grants[g].intents[order.intent];
    assert RunFor(s.grants[g], g, s.tasks, order.intent);
  }

  /** An order with a known id commits exactly when everything is still current and it repeats its Run; it then changes
      nothing. */
  lemma ReplayExactly(s: State, m: nat, g: nat, basis: Option<nat>, order: Order, now: nat, ws: Workspace)
    requires Sound(s) && Indexed(s) && m < |s.messages| && g < |s.grants| && order.id in s.grants[g].commands
    ensures var out := DoPrepareTask(s, m, g, basis, order, now, ws);
      (out.Done? <==> (
        MayRepeat(s, m, g, basis, order, now, ws) && exists t: nat :: Repeats(s, t, m, g, basis, order))) &&
      (out.Done? ==> out.state == s)
  {
    if t: nat :| Repeats(s, t, m, g, basis, order) && MayRepeat(s, m, g, basis, order, now, ws) {
      RepeatCommits(s, t, m, g, basis, order, now, ws);
    }
    if DoPrepareTask(s, m, g, basis, order, now, ws).Done? {
      var t := OnlyRepeats(s, m, g, basis, order, now, ws);
      RepeatCommits(s, t, m, g, basis, order, now, ws);
    }
  }
}
