/**
 * The Agent import dialog for one target: what the view remembers, what survives an unmount in
 * storage, and the transaction manager that claims an id durably before it broadcasts it.
 *
 * Every asynchronous action is a `Job` that moves one await at a time, so clicks, authority
 * changes, unmounts and remounts may fall between any two of its steps. A job whose view was
 * unmounted goes on as a stray: it may still touch the journal, never the view.
 */
module ImportSession {
  import opened Common
  import opened Outcomes

  type Id = nat

  datatype Stored = Absent | Attempt(id: Id) | Unreadable
  datatype Reply = Quoted(quote: nat) | AlreadyImported | NotSubmitted | Outcome(status: Status)

  datatype Phase =
    | Loading            // waiting for the device and its grant
    | Preparing          // reading the journal for the original transaction
    | Planning           // verifying authority and building the quote
    | Starting           // submit: reading the journal again
    | Signing            // waiting for the native signature
    | Claiming           // writing the durable claim
    | Claimed            // the claim is durable, the broadcast has not happened
    | Sent               // broadcast, waiting for the receipt
    | Querying           // query of the original transaction
    | Ready(reply: Reply)
    | Thrown

  datatype Job = Job(session: nat, id: Id, quote: nat, phase: Phase)
  /** `plans` are the quotes the controller would still sign for. */
  datatype Session = Session(disposed: bool, plans: set<nat>)
  datatype View = View(
    attempt: Option<Id>, session: Option<nat>, quote: Option<nat>, outcome: Option<Status>,
    registered: bool, unsubmitted: bool, restored: bool, job: Option<Job>)
  /** `called` logs every broadcast call, `sent` holds the ids the chain took. */
  datatype World = World(
    stored: Stored, view: Option<View>, sessions: seq<Session>, strays: seq<Job>,
    journal: set<Id>, called: seq<Id>, sent: set<Id>, results: map<Id, Status>, used: set<Id>, nextQuote: nat)

  /** What the environment decides at an await: failure, a duplicate registration, a visible receipt. */
  datatype Choice = Choice(ok: bool, already: bool, visible: bool)

  datatype Event =
    | Mount
    | Unmount
    | ClickQuote
    | ClickSubmit
    | ClickCancel
    | ClickQuery
    | ClickReset
    | AuthorityChange
    | Load(id: Id, choice: Choice)
    | Progress(choice: Choice)
    | Deliver(revisionChanged: bool)
    | StrayProgress(index: nat, choice: Choice)
    | Resolve(id: Id, success: bool)

  const EMPTY_VIEW := View(None, None, None, None, false, false, false, None)

  // ------------------------------------------------------------ journal and chain

  /** Querying an original transaction: its receipt if it can be read, otherwise unknown. */
  function Query(w: World, id: Id, visible: bool): Status {
    if visible && id in w.results then w.results[id] else Unknown
  }

  function DropPlan(w: World, s: nat, q: nat): World {
    if s < |w.sessions| then w.(sessions := w.sessions[s := w.sessions[s].(plans := w.sessions[s].plans - {q})]) else w
  }

  function Dispose(w: World, session: Option<nat>): World {
    if session.Some? && session.value < |w.sessions| then w.(sessions :=
      w.sessions[session.value := Session(true, {})]) else w
  }

  predicate Signable(w: World, job: Job) {
    job.session < |w.sessions| && !w.sessions[job.session].disposed && job.quote in w.sessions[job.session].plans
  }

  predicate Alive(w: World, job: Job) { job.session < |w.sessions| && !w.sessions[job.session].disposed }

  /** One await of a running job, the same for a mounted view and for a stray. */
  function Advance(w: World, job: Job, c: Choice): (World, Job) {
    var recorded := Ready(Outcome(Query(w, job.id, c.visible)));
    match job.phase
    case Preparing =>
      if !c.ok then (w, job.(phase := Thrown))
      else if job.id in w.journal then (w, job.(phase := recorded))
      else (w, job.(phase := Planning))
    case Planning =>
      if !c.ok then (w, job.(phase := Thrown))
      else if c.already then (w, job.(phase := Ready(AlreadyImported)))
      else if !Alive(w, job) then (w, job.(phase := Thrown))
      else
        var q := w.nextQuote;
        var s := w.sessions[job.session];
        (w.(nextQuote := q + 1, sessions := w.sessions[job.session := s.(plans := s.plans + {q})]),
          job.(phase := Ready(Quoted(q))))
    case Starting =>
      if !c.ok || !(job.session < |w.sessions| && job.quote in w.sessions[job.session].plans)
        then (w, job.(phase := Thrown))
      else if job.id in w.journal then (w, job.(phase := recorded))
      else if c.already then (w, job.(phase := Ready(AlreadyImported)))
      else (w, job.(phase := Signing))
    case Signing =>
      if job.id in w.journal && c.already then (w, job.(phase := recorded))
      else if !c.ok || !Signable(w, job) then (w, job.(phase := Thrown))
      else (w, job.(phase := Claiming))
    case Claiming =>
      if job.id in w.journal then (w, job.(phase := if c.ok then recorded else Thrown))
      // A failed claim may or may not have become durable.
      else if !c.ok then (if c.visible then w.(journal := w.journal + {job.id}) else w, job.(phase := Thrown))
      else (w.(journal := w.journal + {job.id}), job.(phase := Claimed))
    case Claimed =>
      if !Alive(w, job) then (w, job.(phase := recorded))
      // A call that throws, because the node is down or the validators reject it, is only queried afterwards.
      else if !c.ok then (w.(called := w.called + [job.id]), job.(phase := recorded))
      else (w.(called := w.called + [job.id], sent := w.sent + {job.id}), job.(phase := Sent))
    case Sent => (w, job.(phase := recorded))
    case Querying =>
      if !c.ok then (w, job.(phase := Thrown))
      else if job.id in w.journal then (w, job.(phase := recorded))
      else (w, job.(phase := Ready(NotSubmitted)))
    // Loading belongs to a mounted view; anywhere else its next check throws.
    case Loading => (w, job.(phase := Thrown))
    case Ready(_) => (w, job)
    case Thrown => (w, job)
  }

  // ------------------------------------------------------------ the mounted view

  function Restore(stored: Stored): View {
    match stored
    case Absent => EMPTY_VIEW
    case Attempt(id) => EMPTY_VIEW.(attempt := Some(id), restored := true)
    case Unreadable => EMPTY_VIEW.(restored := true)
  }

  function SetView(w: World, v: View): World { w.(view := Some(v)) }

  /** The first part of quoting: reuse the session, or save a new attempt and open one. */
  function DoLoad(w: World, v: View, id: Id, c: Choice): World
    requires v.job.Some?
  {
    var job := v.job.value;
    if !c.ok then SetView(w, v.(job := Some(job.(phase := Thrown))))
    else if v.session.Some? && v.attempt.Some? then
      SetView(w, v.(job := Some(Job(v.session.value, v.attempt.value, job.quote, Preparing))))
    else
      var extended := w.(sessions := w.sessions + [Session(false, {})]);
      if v.attempt.Some? then
        SetView(extended, v.(session := Some(|w.sessions|), job :=
          Some(Job(|w.sessions|, v.attempt.value, job.quote, Preparing))))
      // Saving refuses an unreadable or different stored attempt, and an id must be new.
      else if !w.stored.Absent? || id in w.used then SetView(w, v.(job := Some(job.(phase := Thrown))))
      // The write may land although its check fails.
      else if !c.visible then SetView(w.(stored := Attempt(id), used := w.used + {id}),
        v.(job := Some(job.(phase := Thrown))))
      else
        SetView(extended.(stored := Attempt(id), used := w.used + {id}),
                v.(attempt := Some(id), session := Some(|w.sessions|),
                  job := Some(Job(|w.sessions|, id, job.quote, Preparing))))
  }

  /** What a finished action shows. */
  function DoDeliver(w: World, v: View, revisionChanged: bool): World
    requires v.job.Some?
  {
    var job, idle := v.job.value, v.(job := None);
    match job.phase
    case Ready(Quoted(q)) =>
      if revisionChanged then SetView(DropPlan(w, job.session, q), idle)
      else SetView(w, idle.(quote := Some(q), unsubmitted := true))
    case Ready(AlreadyImported) => SetView(w, idle.(quote := None, registered := true, unsubmitted := true))
    case Ready(NotSubmitted) => SetView(w, idle.(unsubmitted := true))
    case Ready(Outcome(s)) => SetView(w, idle.(quote := None, outcome := Some(s), unsubmitted := false))
    case Thrown => SetView(w, idle)
    case _ => w
  }

  function CancelQuote(w: World, v: View): World {
    if v.quote.Some? && v.session.Some? then SetView(DropPlan(w, v.session.value, v.quote.value), v.(quote := None))
      else w
  }

  predicate ResetAllowed(v: View) {
    v.attempt.Some? && v.job.None? && v.outcome != Some(Unknown) && (v.outcome.Some? || v.unsubmitted)
  }

  function ViewStep(w: World, v: View, e: Event): World {
    match e
    case Unmount =>
      Dispose(w, v.session).(view := None, strays := if v.job.Some? then w.strays + [v.job.value] else w.strays)
    case ClickQuote =>
      if v.job.Some? || v.outcome.Some? || v.registered || v.quote.Some? || v.restored then w
      else SetView(w, v.(job := Some(Job(0, 0, 0, Loading))))
    case ClickSubmit =>
      if v.job.Some? || v.quote.None? || v.session.None? || v.attempt.None? then w
      else SetView(w, v.(unsubmitted := false, job := Some(Job(v.session.value, v.attempt.value, v.quote.value,
        Starting))))
    case ClickCancel => if v.job.Some? then w else CancelQuote(w, v)
    case ClickQuery =>
      if v.job.Some? || v.attempt.None? then w
      else SetView(w, v.(job := Some(Job(0, v.attempt.value, 0, Querying))))
    case ClickReset =>
      if !ResetAllowed(v) then w else SetView(Dispose(w, v.session).(stored := Absent), EMPTY_VIEW)
    case AuthorityChange => CancelQuote(w, v)
    case Load(id, c) => if v.job.Some? && v.job.value.phase.Loading? then DoLoad(w, v, id, c) else w
    case Progress(c) =>
      if v.job.None? || v.job.value.phase.Loading? then w else
      var (w', job') := Advance(w, v.job.value, c);
      SetView(w', v.(job := Some(job')))
    case Deliver(changed) => if v.job.Some? then DoDeliver(w, v, changed) else w
    case _ => w
  }

  function Step(w: World, e: Event): World {
    match e
    case Resolve(id, success) =>
      if id in w.sent && id !in w.results then w.(results := w.results[id := if success then Confirmed else Failed])
        else w
    case StrayProgress(i, c) =>
      if i >= |w.strays| then w else
      var (w', job') := Advance(w, w.strays[i], c);
      w'.(strays := w.strays[i := job'])
    case Mount => if w.view.None? then SetView(w, Restore(w.stored)) else w
    case _ => if w.view.Some? then ViewStep(w, w.view.value, e) else w
  }

  function Execute(w: World, events: seq<Event>): World
    decreases |events|
  {
    if events == [] then w else Execute(Step(w, events[0]), events[1..])
  }

  // ------------------------------------------------------------ invariant

  ghost predicate Unresolved(w: World, id: Id) { id in w.sent && id !in w.results }

  /** What a reply of the live job is allowed to claim. */
  ghost predicate ReplyTrue(w: World, id: Id, r: Reply) {
    match r
    case Outcome(Unknown) => id in w.journal
    case Outcome(status) => id in w.journal && id in w.results && w.results[id] == status
    case _ => id !in w.called
  }

  predicate Sending(p: Phase) { p.Starting? || p.Signing? || p.Claiming? || p.Claimed? || p.Sent? }
  predicate Quoting(p: Phase) { p.Loading? || p.Preparing? || p.Planning? || (p.Ready? && p.reply.Quoted?) }

  ghost predicate LiveJob(w: World, v: View, job: Job) {
    (job.phase.Loading? || job.phase.Thrown? || v.attempt == Some(job.id)) &&
    (Sending(job.phase) || (Quoting(job.phase) && !job.phase.Loading?) ==> v.session == Some(job.session)) &&
    (Sending(job.phase) || Quoting(job.phase) ==> v.outcome.None?) &&
    (Quoting(job.phase) ==> v.quote.None?) &&
    (Sending(job.phase) ==> !v.unsubmitted) &&
    (job.phase.Planning? || (Sending(job.phase) && !job.phase.Sent?) ==> job.id !in w.called) &&
    (job.phase.Claimed? || job.phase.Sent? ==> job.id in w.journal) &&
    (job.phase.Ready? ==> ReplyTrue(w, job.id, job.phase.reply))
  }

  /** A quote on display belongs to an attempt not yet broadcast, except while its own submission finishes. */
  ghost predicate QuoteInv(w: World, v: View) {
    v.quote.Some? ==> (
      v.session.Some? && v.attempt.Some? && v.outcome.None? &&
      (v.attempt.value in w.called ==>
        v.job.Some? && (v.job.value.phase.Sent? || (v.job.value.phase.Ready? && v.job.value.phase.reply.Outcome?))))
  }

  ghost predicate ViewInv(w: World, v: View) {
    (v.attempt.Some? ==> w.stored == Attempt(v.attempt.value)) &&
    (v.session.Some? ==> v.session.value < |w.sessions| && v.attempt.Some? && !v.restored) &&
    (v.session.Some? ==> !w.sessions[v.session.value].disposed) &&
    QuoteInv(w, v) &&
    (v.unsubmitted ==> v.attempt.Some? && v.attempt.value !in w.called) &&
    (v.outcome.Some? ==> v.attempt.Some? && v.attempt.value in w.journal) &&
    (v.outcome.Some? && !v.outcome.value.Unknown? ==>
      v.attempt.Some? && v.attempt.value in w.results && w.results[v.attempt.value] == v.outcome.value) &&
    (v.restored && v.job.Some? ==> !Sending(v.job.value.phase) && !Quoting(v.job.value.phase)) &&
    (w.stored.Unreadable? ==> v.restored) &&
    (v.job.Some? ==> LiveJob(w, v, v.job.value))
  }

  /** A job that outlived its view can no longer broadcast. */
  ghost predicate StrayInv(w: World, job: Job) {
    Sending(job.phase) ==> job.id in w.used && job.session < |w.sessions| && w.sessions[job.session].disposed
  }

  ghost predicate Distinct(s: seq<Id>) { forall i, j :: 0 <= i < j < |s| ==> s[i] != s[j] }

  ghost predicate Ledger(w: World) {
    Distinct(w.called) &&
    (forall id :: id in w.called ==> id in w.journal) &&
    (forall id :: id in w.sent ==> id in w.called) &&
    (forall id :: id in w.journal ==> id in w.used) &&
    (forall id :: id in w.results ==> id in w.sent && !w.results[id].Unknown?) &&
    (w.stored.Attempt? ==> w.stored.id in w.used) &&
    (forall id :: Unresolved(w, id) ==> w.stored == Attempt(id))
  }

  ghost predicate Inv(w: World) {
    Ledger(w) &&
    (forall i :: 0 <= i < |w.strays| ==> StrayInv(w, w.strays[i])) &&
    (w.view.Some? ==> ViewInv(w, w.view.value))
  }

  // ------------------------------------------------------------ every step keeps it

  /** The broadcast call itself, taken or refused: the id is the stored one, was never called before, and nothing else
      is unresolved. */
  lemma SendKeeps(w: World, v: View, job: Job, w': World, v': View)
    requires Inv(w) && w.view == Some(v) && v.job == Some(job) && job.phase.Claimed? && job.id in w.journal
    requires v'.job.Some? && v' == v.(job := Some(job.(phase := v'.job.value.phase)))
    requires w' == w.(called := w.called + [job.id], sent := w'.sent, view := Some(v'))
    requires (w'.sent == w.sent + {job.id} && v'.job.value.phase.Sent?) ||
      (w'.sent == w.sent && v'.job.value.phase == Ready(Outcome(Unknown)))
    ensures Inv(w')
  {
    assert LiveJob(w, v, job);
    assert forall id :: id in w'.called <==> id in w.called || id == job.id;
    forall id | Unresolved(w', id) ensures w'.stored == Attempt(id) {
      assert id != job.id ==> Unresolved(w, id);
    }
    forall i | 0 <= i < |w'.strays| ensures StrayInv(w', w'.strays[i]) {
      assert StrayInv(w, w.strays[i]);
    }
  }

  /** Short of the broadcast, an await may only claim its own id and add a plan to its own session. */
  ghost predicate Benign(w: World, id: Id, w': World) {
    w' == w.(journal := w'.journal, sessions := w'.sessions, nextQuote := w'.nextQuote, view := w'.view,
      strays := w'.strays) &&
    w.journal <= w'.journal <= w.journal + {id} && |w'.sessions| == |w.sessions| &&
    forall s {:trigger w'.sessions[s]} :: 0 <= s < |w.sessions| ==> w'.sessions[s].disposed == w.sessions[s].disposed
  }

  lemma AdvanceBenign(w: World, job: Job, c: Choice)
    requires !(job.phase.Claimed? && Alive(w, job))
    ensures Benign(w, job.id, Advance(w, job, c).0)
    ensures Advance(w, job, c).0.journal != w.journal ==> Sending(job.phase)
    ensures Advance(w, job, c).0.strays == w.strays
  {
  }

  /** How a live job may move: towards the broadcast only through the checks, to a true reply, or to an error. */
  lemma AdvanceLive(w: World, v: View, job: Job, c: Choice)
    requires LiveJob(w, v, job) && Ledger(w) && !job.phase.Loading? && !(job.phase.Claimed? && Alive(w, job))
    ensures LiveJob(Advance(w, job, c).0, v, Advance(w, job, c).1)
    ensures Moves(job.phase, Advance(w, job, c).1.phase)
  {
  }

  lemma BenignLedger(w: World, id: Id, w': World)
    requires Ledger(w) && Benign(w, id, w') && (w'.journal == w.journal || id in w.used)
    ensures Ledger(w')
  {
    assert forall x :: Unresolved(w', x) <==> Unresolved(w, x);
  }

  lemma BenignView(w: World, id: Id, w': World, v: View)
    requires Benign(w, id, w') && ViewInv(w, v)
    ensures ViewInv(w', v)
  {
    if v.job.Some? {
      assert LiveJob(w', v, v.job.value);
    }
  }

  lemma BenignStrays(w: World, id: Id, w': World, jobs: seq<Job>)
    requires Benign(w, id, w') && forall i :: 0 <= i < |jobs| ==> StrayInv(w, jobs[i])
    ensures forall i :: 0 <= i < |jobs| ==> StrayInv(w', jobs[i])
  {
  }

  /** An outlived job stays unable to broadcast. */
  lemma AdvanceStray(w: World, job: Job, c: Choice)
    requires StrayInv(w, job)
    ensures Benign(w, job.id, Advance(w, job, c).0) && StrayInv(w, Advance(w, job, c).1)
    ensures Advance(w, job, c).0.journal != w.journal ==> job.id in w.used
  {
    AdvanceBenign(w, job, c);
  }

  /** How a job may move between two awaits. */
  ghost predicate Moves(p: Phase, q: Phase) {
    (Sending(q) ==> Sending(p)) && (Quoting(q) ==> Quoting(p)) &&
    (p.Sent? || (p.Ready? && p.reply.Outcome?) ==> q.Ready? && q.reply.Outcome?)
  }

  lemma JobMoved(w: World, v: View, w1: World, job: Job)
    requires Inv(w) && w.view == Some(v) && v.job.Some? && Benign(w, v.job.value.id, w1) && w1.strays == w.strays
    requires LiveJob(w1, v, job) && Moves(v.job.value.phase, job.phase)
    requires w1.journal == w.journal || v.job.value.id in w.used
    ensures Inv(SetView(w1, v.(job := Some(job))))
  {
    var v' := v.(job := Some(job));
    var w' := SetView(w1, v');
    assert LiveJob(w', v', job);
    assert QuoteInv(w', v');
    BenignLedger(w, v.job.value.id, w');
    BenignStrays(w, v.job.value.id, w', w.strays);
  }

  lemma LiveAdvance(w: World, v: View, c: Choice)
    requires Inv(w) && w.view == Some(v) && v.job.Some? && !v.job.value.phase.Loading?
    ensures Inv(Step(w, Progress(c)))
  {
    var job := v.job.value;
    if job.phase.Claimed? && Alive(w, job) {
      var w' := Step(w, Progress(c));
      SendKeeps(w, v, job, w', w'.view.value);
    } else {
      AdvanceBenign(w, job, c);
      AdvanceLive(w, v, job, c);
      JobMoved(w, v, Advance(w, job, c).0, Advance(w, job, c).1);
    }
  }

  lemma StrayAdvance(w: World, i: nat, c: Choice)
    requires Inv(w) && i < |w.strays|
    ensures Inv(Step(w, StrayProgress(i, c)))
  {
    var job := w.strays[i];
    assert StrayInv(w, job);
    AdvanceStray(w, job, c);
    var w1, jobs := Advance(w, job, c).0, w.strays[i := Advance(w, job, c).1];
    var w' := w1.(strays := jobs);
    assert Step(w, StrayProgress(i, c)) == w';
    BenignLedger(w, job.id, w');
    BenignStrays(w, job.id, w', jobs);
    if w.view.Some? {
      BenignView(w, job.id, w', w.view.value);
    }
  }

  /** Loading may store a new id, only where nothing was stored, and open one session. */
  lemma LoadKeeps(w: World, v: View, id: Id, c: Choice)
    requires Inv(w) && w.view == Some(v) && v.job.Some? && v.job.value.phase.Loading?
    ensures Inv(DoLoad(w, v, id, c))
  {
    var w' := DoLoad(w, v, id, c);
    assert LiveJob(w, v, v.job.value);
    LoadLedger(w, w');
    forall i | 0 <= i < |w'.strays| ensures StrayInv(w', w'.strays[i]) {
      assert StrayInv(w, w.strays[i]);
    }
    assert LiveJob(w', w'.view.value, w'.view.value.job.value);
  }

  lemma LoadLedger(w: World, w': World)
    requires Ledger(w) && w' == w.(stored := w'.stored, used := w'.used, view := w'.view, sessions := w'.sessions)
    requires (w'.stored == w.stored && w'.used == w.used) ||
      (w.stored.Absent? && w'.stored.Attempt? && w'.used == w.used + {w'.stored.id})
    ensures Ledger(w')
  {
    assert forall x :: Unresolved(w', x) <==> Unresolved(w, x);
  }

  /** Only the view, the plans and the stored attempt change. */
  ghost predicate Quiet(w: World, w': World) {
    w' == w.(stored := w'.stored, view := w'.view, sessions := w'.sessions, strays := w'.strays) &&
      |w'.sessions| == |w.sessions| &&
    forall s :: 0 <= s < |w.sessions| && w.sessions[s].disposed ==> w'.sessions[s].disposed
  }

  lemma QuietKeeps(w: World, w': World)
    requires Inv(w) && Quiet(w, w') && w'.strays == w.strays
    requires w'.stored == w.stored || (w'.stored.Absent? && forall id :: !Unresolved(w, id))
    requires w'.view.Some? ==> ViewInv(w', w'.view.value)
    ensures Inv(w')
  {
    assert forall x :: Unresolved(w', x) <==> Unresolved(w, x);
    forall i | 0 <= i < |w'.strays| ensures StrayInv(w', w'.strays[i]) {
      assert StrayInv(w, w.strays[i]);
    }
  }

  lemma UnmountKeeps(w: World, v: View)
    requires Inv(w) && w.view == Some(v)
    ensures Inv(ViewStep(w, v, Unmount))
  {
    var w' := ViewStep(w, v, Unmount);
    assert forall x :: Unresolved(w', x) <==> Unresolved(w, x);
    forall i | 0 <= i < |w'.strays| ensures StrayInv(w', w'.strays[i]) {
      if i < |w.strays| { assert StrayInv(w, w.strays[i]); }
    }
  }

  lemma ResetKeeps(w: World, v: View)
    requires Inv(w) && w.view == Some(v)
    ensures Inv(ViewStep(w, v, ClickReset))
  {
    if ResetAllowed(v) {
      QuietKeeps(w, ViewStep(w, v, ClickReset));
    }
  }

  lemma DeliverQuote(w: World, v: View, changed: bool)
    requires Inv(w) && w.view == Some(v) && v.job.Some? && v.job.value.phase.Ready? && v.job.value.phase.reply.Quoted?
    ensures Inv(DoDeliver(w, v, changed))
  {
    assert LiveJob(w, v, v.job.value);
    QuietKeeps(w, DoDeliver(w, v, changed));
  }

  lemma DeliverOutcome(w: World, v: View, changed: bool)
    requires Inv(w) && w.view == Some(v) && v.job.Some? && v.job.value.phase.Ready? && v.job.value.phase.reply.Outcome?
    ensures Inv(DoDeliver(w, v, changed))
  {
    assert LiveJob(w, v, v.job.value);
    QuietKeeps(w, DoDeliver(w, v, changed));
  }

  lemma DeliverKeeps(w: World, v: View, changed: bool)
    requires Inv(w) && w.view == Some(v) && v.job.Some?
    ensures Inv(DoDeliver(w, v, changed))
  {
    var phase := v.job.value.phase;
    if phase.Ready? && phase.reply.Quoted? {
      DeliverQuote(w, v, changed);
    } else if phase.Ready? && phase.reply.Outcome? {
      DeliverOutcome(w, v, changed);
    } else {
      assert LiveJob(w, v, v.job.value);
      QuietKeeps(w, DoDeliver(w, v, changed));
    }
  }

  lemma ClickKeeps(w: World, v: View, e: Event)
    requires Inv(w) && w.view == Some(v)
    requires e.ClickQuote? || e.ClickSubmit? || e.ClickCancel? || e.ClickQuery? || e.AuthorityChange?
    ensures Inv(ViewStep(w, v, e))
  {
    QuietKeeps(w, ViewStep(w, v, e));
  }

  /** The receipt of a broadcast transaction appears on chain. */
  lemma ResolveKeeps(w: World, id: Id, success: bool)
    requires Inv(w)
    ensures Inv(Step(w, Resolve(id, success)))
  {
    var w' := Step(w, Resolve(id, success));
    assert forall x :: Unresolved(w', x) ==> Unresolved(w, x);
    forall i | 0 <= i < |w'.strays| ensures StrayInv(w', w'.strays[i]) { assert StrayInv(w, w.strays[i]); }
  }

  lemma StepKeeps(w: World, e: Event)
    requires Inv(w)
    ensures Inv(Step(w, e))
  {
    if e.StrayProgress? {
      if e.index < |w.strays| { StrayAdvance(w, e.index, e.choice); }
    } else if e.Resolve? {
      ResolveKeeps(w, e.id, e.success);
    } else if e.Mount? {
      QuietKeeps(w, Step(w, e));
    } else if w.view.Some? {
      var v := w.view.value;
      if e.Load? {
        if v.job.Some? && v.job.value.phase.Loading? { LoadKeeps(w, v, e.id, e.choice); }
      } else if e.Progress? {
        if v.job.Some? && !v.job.value.phase.Loading? { LiveAdvance(w, v, e.choice); }
      } else if e.Deliver? {
        if v.job.Some? { DeliverKeeps(w, v, e.revisionChanged); }
      } else if e.Unmount? {
        UnmountKeeps(w, v);
      } else if e.ClickReset? {
        ResetKeeps(w, v);
      } else {
        ClickKeeps(w, v, e);
      }
    }
  }

  lemma {:induction false} ExecuteKeeps(w: World, events: seq<Event>)
    requires Inv(w)
    ensures Inv(Execute(w, events))
    decreases |events|
  {
    if events != [] {
      StepKeeps(w, events[0]);
      ExecuteKeeps(Step(w, events[0]), events[1..]);
    }
  }

  // ------------------------------------------------------------ theorems

  /** A first start, or a restart with whatever an earlier life left in storage and journal. */
  ghost predicate Start(w: World) {
    w.view.None? && w.strays == [] && w.sessions == [] && Ledger(w)
  }

  /** At any time at most one request is unresolved, and its id is the one in storage. */
  lemma UnresolvedIsStored(w: World, events: seq<Event>, id: Id, other: Id)
    requires Start(w)
    ensures var w' := Execute(w, events);
      Unresolved(w', id) ==> w'.stored == Attempt(id) && (Unresolved(w', other) ==> other == id)
  {
    ExecuteKeeps(w, events);
  }

  /** No id is ever broadcast twice. */
  lemma NeverReplayed(w: World, events: seq<Event>)
    requires Start(w)
    ensures Distinct(Execute(w, events).called)
  {
    ExecuteKeeps(w, events);
  }

  lemma ProgressSends(w: World, v: View, c: Choice)
    requires Inv(w) && w.view == Some(v) && v.job.Some?
    ensures var w' := Advance(w, v.job.value, c).0;
      w'.stored == w.stored && ((w'.called == w.called && w'.sent == w.sent) ||
      (w.stored == Attempt(v.job.value.id) && w'.called == w.called + [w.stored.id] &&
        w'.sent <= w.sent + {w.stored.id} && !v.restored))
  {
    assert LiveJob(w, v, v.job.value);
  }

  /** Only the stored attempt of a mounted, not restored view can be broadcast. */
  lemma StepSends(w: World, e: Event)
    requires Inv(w)
    ensures var w' := Step(w, e);
      (w'.called == w.called && w'.sent == w.sent) ||
      (w.stored.Attempt? && w'.called == w.called + [w.stored.id] && w'.sent <= w.sent + {w.stored.id} &&
        w.view.Some? && !w.view.value.restored &&
        w'.stored == w.stored)
  {
    if e.StrayProgress? && e.index < |w.strays| {
      AdvanceStray(w, w.strays[e.index], e.choice);
    } else if e.Progress? && w.view.Some? && w.view.value.job.Some? {
      ProgressSends(w, w.view.value, e.choice);
    }
  }

  /** Storage changes only by saving a new id where there was none, or by a reset. */
  lemma StepStores(w: World, e: Event)
    requires Inv(w)
    ensures var w' := Step(w, e);
      w.used <= w'.used &&
      (w'.stored == w.stored ||
       (w.stored.Absent? && w'.stored.Attempt? && w'.stored.id !in w.used && e.Load?) ||
       (w.stored.Attempt? && w'.stored.Absent? && e.ClickReset? && w.view.Some? && ResetAllowed(w.view.value) &&
         w.view.value.attempt == Some(w.stored.id)))
  {
  }

  /** An id that left storage is never broadcast afterwards. */
  lemma {:induction false} ForgottenNeverSent(w: World, events: seq<Event>, id: Id)
    requires Inv(w) && id in w.used && w.stored != Attempt(id)
    ensures id in Execute(w, events).called <==> id in w.called
    ensures Execute(w, events).stored != Attempt(id)
    decreases |events|
  {
    if events != [] {
      StepSends(w, events[0]);
      StepStores(w, events[0]);
      StepKeeps(w, events[0]);
      ForgottenNeverSent(Step(w, events[0]), events[1..], id);
    }
  }

  /** An attempt is forgotten only when the view shows the receipt the chain gave it, or when it was never sent and
      never will be. */
  lemma ForgottenSafely(w: World, e: Event, later: seq<Event>)
    requires Inv(w) && w.stored.Attempt? && Step(w, e).stored != w.stored
    ensures e.ClickReset?
    ensures w.view.Some? && (
      (w.stored.id in w.results && w.view.value.outcome == Some(w.results[w.stored.id])) ||
      w.stored.id !in Execute(Step(w, e), later).called)
  {
    StepStores(w, e);
    StepKeeps(w, e);
    ForgottenNeverSent(Step(w, e), later, w.stored.id);
  }

  /** Once its view was unmounted, an attempt is never quoted or broadcast again: whatever happens, it can only be
      queried. */
  ghost predicate Retired(w: World, id: Id) {
    id in w.used && (w.stored == Attempt(id) && w.view.Some? ==> w.view.value.restored)
  }

  lemma RetiredStep(w: World, e: Event, id: Id)
    requires Inv(w) && Retired(w, id)
    ensures Retired(Step(w, e), id) && (id in Step(w, e).called <==> id in w.called)
    ensures w.stored == Attempt(id) && Step(w, e).view.Some? && Step(w, e).stored == w.stored ==>
      Step(w, e).view.value.quote.None?
  {
    StepSends(w, e);
    StepStores(w, e);
    StepKeeps(w, e);
  }

  lemma {:induction false} RestoredNeverRequoted(w: World, events: seq<Event>, id: Id)
    requires Inv(w) && w.view.None? && w.stored == Attempt(id)
    ensures var w' := Execute(w, events);
      (id in w'.called <==> id in w.called) && (w'.stored == Attempt(id) && w'.view.Some? ==>
        w'.view.value.restored && w'.view.value.quote.None?)
  {
    RetiredForever(w, events, id);
    ExecuteKeeps(w, events);
  }

  lemma {:induction false} RetiredForever(w: World, events: seq<Event>, id: Id)
    requires Inv(w) && Retired(w, id)
    ensures Retired(Execute(w, events), id) && (id in Execute(w, events).called <==> id in w.called)
    decreases |events|
  {
    if events != [] {
      RetiredStep(w, events[0], id);
      StepKeeps(w, events[0]);
      RetiredForever(Step(w, events[0]), events[1..], id);
    }
  }

  /** An unreadable stored attempt blocks every new one. */
  lemma {:induction false} UnreadableBlocks(w: World, events: seq<Event>)
    requires Inv(w) && w.stored.Unreadable?
    ensures Execute(w, events).stored.Unreadable? && Execute(w, events).called == w.called &&
      Execute(w, events).sent == w.sent
    decreases |events|
  {
    if events != [] {
      StepSends(w, events[0]);
      StepStores(w, events[0]);
      StepKeeps(w, events[0]);
      UnreadableBlocks(Step(w, events[0]), events[1..]);
    }
  }

  /** Claimed durably, never broadcast, and no action of the view is in a position to broadcast it or to call it
      unsubmitted. */
  ghost predicate Stuck(w: World, id: Id) {
    w.stored == Attempt(id) && id in w.journal && id !in w.sent &&
    (w.view.Some? ==> !w.view.value.unsubmitted) &&
    (w.view.Some? && w.view.value.job.Some? ==> !MayStillAct(w.view.value.job.value.phase))
  }

  predicate MayStillAct(p: Phase) { p.Planning? || p.Claimed? || (p.Ready? && !p.reply.Outcome?) }

  lemma StuckStep(w: World, e: Event, id: Id)
    requires Inv(w) && Stuck(w, id)
    ensures Stuck(Step(w, e), id)
  {
    StepStores(w, e);
    if e.StrayProgress? && e.index < |w.strays| {
      assert StrayInv(w, w.strays[e.index]);
    } else if w.view.Some? && w.view.value.job.Some? {
      assert LiveJob(w, w.view.value, w.view.value.job.value);
    }
  }

  /** An id claimed durably but never broadcast stays in storage for good: it can be neither sent nor reset. */
  lemma {:induction false} ClaimedUnsentIsKept(w: World, events: seq<Event>, id: Id)
    requires Inv(w) && Stuck(w, id)
    ensures Execute(w, events).stored == Attempt(id) && id !in Execute(w, events).sent
    decreases |events|
  {
    if events != [] {
      StuckStep(w, events[0], id);
      StepKeeps(w, events[0]);
      ClaimedUnsentIsKept(Step(w, events[0]), events[1..], id);
    }
  }

  /** First way in: the view is unmounted between the claim and the broadcast. */
  lemma UnmountAfterClaim(w: World)
    requires Inv(w) && w.view.Some? && w.view.value.job.Some? && w.view.value.job.value.phase.Claimed?
    ensures Stuck(Step(w, Unmount), w.view.value.job.value.id)
  {
    assert LiveJob(w, w.view.value, w.view.value.job.value);
  }

  /** Second way in: the view is unmounted while the claim is being written, and the claim then succeeds. */
  lemma UnmountDuringClaim(w: World, c: Choice)
    requires Inv(w) && w.view.Some? && w.view.value.job.Some? && w.view.value.job.value.phase.Claiming?
    requires c.ok && w.view.value.job.value.id !in w.journal
    ensures Stuck(Step(Step(w, Unmount), StrayProgress(|w.strays|, c)), w.view.value.job.value.id)
  {
    assert LiveJob(w, w.view.value, w.view.value.job.value);
  }

  /** Third way in, without any unmount: the claim became durable although it was reported as failed. */
  lemma ClaimReportedFailed(w: World, c: Choice)
    requires Inv(w) && w.view.Some? && w.view.value.job.Some? && w.view.value.job.value.phase.Claiming?
    requires !c.ok && c.visible && w.view.value.job.value.id !in w.journal
    ensures Stuck(Step(w, Progress(c)), w.view.value.job.value.id)
  {
    assert LiveJob(w, w.view.value, w.view.value.job.value);
  }

  /** Fourth way in, with the view mounted throughout: the broadcast call is refused. */
  lemma BroadcastRefused(w: World, c: Choice)
    requires Inv(w) && w.view.Some? && w.view.value.job.Some? && w.view.value.job.value.phase.Claimed? && !c.ok
    ensures Stuck(Step(w, Progress(c)), w.view.value.job.value.id)
  {
    assert LiveJob(w, w.view.value, w.view.value.job.value);
  }

  /** The view's own action for `id` stands in phase `p`. */
  ghost predicate Acts(w: World, id: Id, claimed: bool) {
    w.view.Some? && w.view.value.job.Some? && w.view.value.job.value.id == id &&
    (if claimed then w.view.value.job.value.phase.Claimed? else w.view.value.job.value.phase.Claiming?)
  }

  /** In the journal, not taken by the chain, and no mounted action left to broadcast it. */
  ghost predicate Lost(w: World, id: Id) { id in w.journal && id !in w.sent && !Acts(w, id, true) }

  lemma LostByProgress(w: World, v: View, c: Choice, id: Id)
    requires Inv(w) && w.view == Some(v) && v.job.Some? && !v.job.value.phase.Loading?
    requires !Lost(w, id) && Lost(Step(w, Progress(c)), id)
    ensures !c.ok && (Acts(w, id, false) || Acts(w, id, true))
  {
    assert LiveJob(w, v, v.job.value);
  }

  lemma LostByStray(w: World, i: nat, c: Choice, id: Id)
    requires Inv(w) && i < |w.strays| && !Lost(w, id) && Lost(Step(w, StrayProgress(i, c)), id)
    ensures w.strays[i].id == id && w.strays[i].phase.Claiming?
  {
    assert StrayInv(w, w.strays[i]);
    AdvanceStray(w, w.strays[i], c);
  }

  /** There is no fifth way: an id gets lost only by an unmount after its claim, by the claim of an outlived action,
      by a claim reported as failed, or by a refused broadcast. */
  lemma LostOnlyBy(w: World, e: Event, id: Id)
    requires Inv(w) && !Lost(w, id) && Lost(Step(w, e), id)
    ensures (e.Unmount? && Acts(w, id, true)) ||
      (e.StrayProgress? && e.index < |w.strays| && w.strays[e.index].id == id && w.strays[e.index].phase.Claiming?) ||
      (e.Progress? && !e.choice.ok && (Acts(w, id, false) || Acts(w, id, true)))
  {
    if e.StrayProgress? && e.index < |w.strays| {
      LostByStray(w, e.index, e.choice, id);
    } else if e.Progress? && w.view.Some? && w.view.value.job.Some? && !w.view.value.job.value.phase.Loading? {
      LostByProgress(w, w.view.value, e.choice, id);
    }
  }

  lemma ExecuteCons(w: World, e: Event, rest: seq<Event>)
    ensures Execute(w, [e] + rest) == Execute(Step(w, e), rest)
  {
    assert ([e] + rest)[1..] == rest;
  }

  /** Reopen and query the original. */
  lemma RecallAnswers(w: World, id: Id)
    requires Inv(w) && w.view.None? && w.stored == Attempt(id)
    ensures var v := EMPTY_VIEW.(attempt := Some(id), restored := true);
      var reply := if id in w.journal then Outcome(Query(w, id, true)) else NotSubmitted;
      Step(Step(Step(w, Mount), ClickQuery), Progress(Choice(true, false, true))) ==
        SetView(w, v.(job := Some(Job(0, id, 0, Ready(reply)))))
  {
    var v := EMPTY_VIEW.(attempt := Some(id), restored := true);
    assert Step(w, Mount) == SetView(w, v);
    assert Step(SetView(w, v), ClickQuery) == SetView(w, v.(job := Some(Job(0, id, 0, Querying))));
  }

  /** Deliver the answer and reset. */
  lemma AnswerResets(w: World, id: Id, reply: Reply)
    requires reply.NotSubmitted? || (reply.Outcome? && !reply.status.Unknown?)
    ensures var v := EMPTY_VIEW.(attempt := Some(id), restored := true, job := Some(Job(0, id, 0, Ready(reply))));
      Step(Step(SetView(w, v), Deliver(false)), ClickReset).stored.Absent?
  {
  }

  lemma RecallResets(w: World, id: Id) returns (events: seq<Event>)
    requires Inv(w) && w.view.None? && w.stored == Attempt(id) && (id !in w.journal || id in w.results)
    ensures Execute(w, events).stored.Absent? && Without(events, id)
  {
    var answer := Progress(Choice(true, false, true));
    RecallAnswers(w, id);
    AnswerResets(w, id, if id in w.journal then Outcome(Query(w, id, true)) else NotSubmitted);
    var w1 := Step(w, Mount);
    var w2 := Step(w1, ClickQuery);
    var w3 := Step(w2, answer);
    var w4 := Step(w3, Deliver(false));
    ExecuteCons(w4, ClickReset, []);
    ExecuteCons(w3, Deliver(false), [ClickReset] + []);
    ExecuteCons(w2, answer, [Deliver(false)] + ([ClickReset] + []));
    ExecuteCons(w1, ClickQuery, [answer] + ([Deliver(false)] + ([ClickReset] + [])));
    ExecuteCons(w, Mount, [ClickQuery] + ([answer] + ([Deliver(false)] + ([ClickReset] + []))));
    events := [Mount] + ([ClickQuery] + ([answer] + ([Deliver(false)] + ([ClickReset] + []))));
  }

  /** Exactly when a stored attempt can still be cleared after its view is gone: unless it was claimed and never
      sent. */
  lemma ClearableExactly(w: World, id: Id)
    requires Inv(w) && w.view.None? && w.stored == Attempt(id)
    ensures (exists events :: Execute(w, events).stored.Absent?) <==> !(id in w.journal && id !in w.sent)
  {
    if id in w.journal && id !in w.sent {
      forall events ensures !Execute(w, events).stored.Absent? {
        ClaimedUnsentIsKept(w, events, id);
      }
    } else {
      var resolve := Resolve(id, true);
      StepKeeps(w, resolve);
      var recall := RecallResets(Step(w, resolve), id);
      ExecuteCons(w, resolve, recall);
      assert Execute(w, [resolve] + recall).stored.Absent?;
    }
  }

  /** Claimed, without a receipt, and no action of the view in a position to call it unsubmitted. */
  ghost predicate Unanswered(w: World, id: Id) {
    w.stored == Attempt(id) && id in w.journal && id !in w.results &&
    (w.view.Some? ==> !w.view.value.unsubmitted) &&
    (w.view.Some? && w.view.value.job.Some? ==> (
      var p := w.view.value.job.value.phase;
      !p.Planning? && (p.Ready? ==> p.reply.Outcome?)))
  }

  lemma UnansweredStep(w: World, e: Event, id: Id)
    requires Inv(w) && Unanswered(w, id) && !(e.Resolve? && e.id == id)
    ensures Unanswered(Step(w, e), id)
  {
    StepStores(w, e);
    if e.StrayProgress? && e.index < |w.strays| {
      assert StrayInv(w, w.strays[e.index]);
    } else if w.view.Some? && w.view.value.job.Some? {
      assert LiveJob(w, w.view.value, w.view.value.job.value);
    }
  }

  predicate Without(events: seq<Event>, id: Id) {
    forall i :: 0 <= i < |events| ==> !(events[i].Resolve? && events[i].id == id)
  }

  lemma {:induction false} UnansweredIsKept(w: World, events: seq<Event>, id: Id)
    requires Inv(w) && Unanswered(w, id) && Without(events, id)
    ensures Execute(w, events).stored == Attempt(id)
    decreases |events|
  {
    if events != [] {
      UnansweredStep(w, events[0], id);
      StepKeeps(w, events[0]);
      UnansweredIsKept(Step(w, events[0]), events[1..], id);
    }
  }

  /** And exactly when it can be cleared without waiting for the chain: it was never claimed, or its receipt exists. */
  lemma ClearableWithoutReceipt(w: World, id: Id)
    requires Inv(w) && w.view.None? && w.stored == Attempt(id)
    ensures (exists events :: Without(events, id) && Execute(w, events).stored.Absent?) <==>
      id !in w.journal || id in w.results
  {
    if id in w.journal && id !in w.results {
      forall events | Without(events, id) ensures !Execute(w, events).stored.Absent? {
        UnansweredIsKept(w, events, id);
      }
    } else {
      var recall := RecallResets(w, id);
      assert Without(recall, id) && Execute(w, recall).stored.Absent?;
    }
  }

  // ------------------------------------------------------------ the component itself

  /** The component with its state fields, the storage it shares with later mounts, and the controllers it opened.
      Every handler is exactly one step of the protocol, so by `StepKeeps` each of them keeps the invariant. */
  class ImportView {
    var stored: Stored
    var mounted: bool
    var attempt: Option<Id>
    var session: Option<nat>
    var quote: Option<nat>
    var outcome: Option<Status>
    var registered: bool
    var unsubmitted: bool
    var restored: bool
    var flight: Option<Job>
    var sessions: seq<Session>
    var strays: seq<Job>
    ghost var net: World

    ghost function Now(): View
      reads this
    {
      View(attempt, session, quote, outcome, registered, unsubmitted, restored, flight)
    }

    /** The component as a state of the protocol; journal and chain are those of `net`. */
    ghost function Model(): World
      reads this
    {
      net.(stored := stored, view := if mounted then Some(Now()) else None, sessions := sessions, strays := strays)
    }

    constructor (start: World)
      requires Start(start)
      ensures Model() == start && Inv(Model())
    {
      stored, mounted, sessions, strays := start.stored, false, [], [];
      attempt, session, quote, outcome, registered, unsubmitted, restored, flight := None, None, None, None, false,
        false, false, None;
      net := start;
    }

    /** Clear every state field, as a fresh component or a reset has them. */
    method Clear()
      modifies this`attempt, this`session, this`quote, this`outcome, this`registered, this`unsubmitted,
        this`restored, this`flight
      ensures Now() == EMPTY_VIEW
    {
      attempt, session, quote, outcome, registered, unsubmitted, restored, flight := None, None, None, None, false,
        false, false, None;
    }

    /** Mounting restores the stored attempt; an unreadable one leaves only the mark that something is stored. */
    method Restore()
      requires !mounted
      modifies this
      ensures mounted && Model() == Step(old(Model()), Mount)
    {
      Clear();
      mounted := true;
      match stored
      case Absent =>
      case Attempt(id) => attempt, restored := Some(id), true;
      case Unreadable => restored := true;
    }

    method DisposeSession()
      modifies this`sessions
      ensures |sessions| == old(|sessions|)
      ensures sessions == if session.Some? && session.value < old(|sessions|)
        then old(sessions)[session.value := Session(true, {})] else old(sessions)
    {
      if session.Some? && session.value < |sessions| {
        sessions := sessions[session.value := Session(true, {})];
      }
    }

    method Unmounted()
      requires mounted
      modifies this
      ensures !mounted && Model() == Step(old(Model()), Unmount)
    {
      DisposeSession();
      if flight.Some? {
        strays := strays + [flight.value];
      }
      mounted := false;
    }

    /** Cancelling, closing and a changed authority all drop the quote and its plan. */
    method DropQuote()
      requires mounted
      modifies this`quote, this`sessions
      ensures Model() == Step(old(Model()), AuthorityChange)
    {
      if quote.Some? && session.Some? {
        if session.value < |sessions| {
          sessions := sessions[session.value := sessions[session.value].(plans :=
            sessions[session.value].plans - {quote.value})];
        }
        quote := None;
      }
    }

    method Reset()
      requires mounted
      modifies this
      ensures Model() == Step(old(Model()), ClickReset)
    {
      if attempt.None? || flight.Some? || outcome == Some(Unknown) || (outcome.None? && !unsubmitted) {
        return;
      }
      stored := Absent;
      DisposeSession();
      Clear();
    }

    /** A quote is shown only if the authority is still the one it was asked under. */
    method ReceiveQuote(q: nat, revisionChanged: bool)
      requires mounted && flight.Some? && flight.value.phase == Ready(Quoted(q))
      modifies this`flight, this`quote, this`unsubmitted, this`sessions
      ensures Model() == Step(old(Model()), Deliver(revisionChanged)) && flight.None?
    {
      var s := flight.value.session;
      flight := None;
      if !revisionChanged {
        quote, unsubmitted := Some(q), true;
      } else if s < |sessions| {
        sessions := sessions[s := sessions[s].(plans := sessions[s].plans - {q})];
      }
    }

    /** What any other finished action shows. */
    method Receive(reply: Reply)
      requires mounted && flight.Some? && flight.value.phase == Ready(reply) && !reply.Quoted?
      modifies this`flight, this`quote, this`outcome, this`registered, this`unsubmitted
      ensures Model() == Step(old(Model()), Deliver(false)) && flight.None?
    {
      flight := None;
      unsubmitted := !reply.Outcome?;
      if reply.Outcome? {
        quote, outcome := None, Some(reply.status);
      } else if reply.AlreadyImported? {
        quote, registered := None, true;
      }
    }
  }
}
