/**
 * The OKR draft dialog: a stored logical id, an epoch that every close advances, and actions
 * that may finish long after the dialog they belong to was closed, hidden or unmounted.
 *
 * The epoch counter is global here: an unmount advances it too, so an action of an earlier
 * component can never match it, which is what its `mounted` flag ensures in the program.
 */
module OkrDraft {
  import opened Common
  import opened Outcomes

  type Id = nat

  datatype Action = PrepareDraft | SubmitDraft | QueryDraft
  datatype Stage = Opening | Acting | Writing | Durable | Waiting | Finished
  /** `value` is the id the action started with, `client` the id its controller is bound to, `quoted` whether a quote
      was on display. */
  datatype Flight = Flight(epoch: nat, action: Action, value: Id, isNew: bool, quoted: bool, client: Id, stage: Stage)
  /** `session` and `quote` carry the logical id they are bound to. */
  datatype Dialog = Dialog(
    active: bool, attempt: Option<Id>, session: Option<Id>, quote: Option<Id>,
    outcome: Option<Status>, error: bool, flight: Option<nat>)
  datatype State = State(
    stored: Option<Id>, epoch: nat, dialog: Option<Dialog>, flights: seq<Flight>,
    journal: set<Id>, sent: set<Id>, results: map<Id, Status>, used: set<Id>)

  /** What an await brings: failure, a visible receipt, and whether storage accepts the attempt. */
  datatype Await = Await(ok: bool, visible: bool, saves: bool)

  datatype Happening =
    | MountDialog
    | UnmountDialog
    | Open
    | Close(force: bool)
    | Edit
    | CancelQuote
    | NewCandidate
    | Start(action: Action, id: Id, saves: bool)
    | Continue(flight: nat, await: Await)
    | Receipt(id: Id, success: bool)

  const BLANK := Dialog(false, None, None, None, None, false, None)

  function Read(s: State, id: Id, visible: bool): Status {
    if visible && id in s.results then s.results[id] else Unknown
  }

  predicate Live(s: State, f: Flight) {
    s.dialog.Some? && s.dialog.value.active && f.epoch == s.epoch
  }

  function Show(s: State, d: Dialog): State { s.(dialog := Some(d)) }

  /** No action changes receipts, the epoch, or which epoch a flight belongs to. */
  ghost predicate Framed(s: State, s': State) {
    s'.results == s.results && s'.epoch == s.epoch && |s'.flights| == |s.flights| &&
    forall j :: 0 <= j < |s.flights| ==> s'.flights[j].epoch == s.flights[j].epoch
  }

  /** A flight always ends by releasing its component's flight flag. */
  function Land(s: State, i: nat): (s': State)
    requires i < |s.flights|
    ensures Framed(s, s')
  {
    var done := s.(flights := s.flights[i := s.flights[i].(stage := Finished)]);
    if s.dialog.Some? && s.dialog.value.flight == Some(i) then Show(done, s.dialog.value.(flight := None)) else done
  }

  /** A thrown error is shown only by a live flight. */
  function Throw(s: State, i: nat): (s': State)
    requires i < |s.flights|
    ensures Framed(s, s')
  {
    Land(if Live(s, s.flights[i]) then Show(s, s.dialog.value.(error := true)) else s, i)
  }

  function ShowOutcome(s: State, i: nat, visible: bool): (s': State)
    requires i < |s.flights|
    ensures Framed(s, s')
  {
    var f := s.flights[i];
    Land(if Live(s, f) then Show(s, s.dialog.value.(outcome := Some(Read(s, f.client, visible)), quote := None))
      else s, i)
  }

  function SetStage(s: State, i: nat, stage: Stage): (s': State)
    requires i < |s.flights|
    ensures Framed(s, s')
  {
    s.(flights := s.flights[i := s.flights[i].(stage := stage)])
  }

  /** Remember a new attempt before acting; a refused write throws. */
  function SaveAndAct(s: State, i: nat, client: Id, saves: bool): (s': State)
    requires i < |s.flights| && s.dialog.Some?
    ensures Framed(s, s')
  {
    var f := s.flights[i];
    var ready := s.(flights := s.flights[i := f.(client := client, stage := Acting)]);
    if !f.isNew then ready
    else if saves then Show(ready, s.dialog.value.(attempt := Some(f.value))).(stored := Some(f.value))
    else Throw(ready, i)
  }

  function Resume(s: State, i: nat, a: Await): (s': State)
    requires i < |s.flights|
    ensures Framed(s, s')
  {
    var f := s.flights[i];
    match f.stage
    case Opening =>
      if !a.ok || !Live(s, f) then Throw(s, i)
      else SaveAndAct(Show(s, s.dialog.value.(session := Some(f.value))), i, f.value, a.saves)
    case Acting =>
      if !a.ok then Throw(s, i)
      else if f.client in s.journal then ShowOutcome(s, i, a.visible)
      else (match f.action
        case QueryDraft =>
          Land(if Live(s, f)
               then Show(s, s.dialog.value.(outcome := None, error := true,
                 session := if f.quoted then s.dialog.value.session else None))
               else s, i)
        case PrepareDraft => Land(if Live(s, f) then Show(s, s.dialog.value.(quote := Some(f.client))) else s, i)
        case SubmitDraft => if !f.quoted || !Live(s, f) then Throw(s, i) else SetStage(s, i, Writing))
    case Writing =>
      if f.client in s.journal then (if a.ok then ShowOutcome(s, i, a.visible) else Throw(s, i))
      else if !a.ok then Throw(if a.visible then s.(journal := s.journal + {f.client}) else s, i)
      else SetStage(s.(journal := s.journal + {f.client}), i, Durable)
    case Durable =>
      // A broadcast that throws is only queried afterwards; `sent` holds what the chain took.
      if !Live(s, f) then Land(s, i)
      else if !a.ok then ShowOutcome(s, i, a.visible)
      else SetStage(s.(sent := s.sent + {f.client}), i, Waiting)
    case Waiting => ShowOutcome(s, i, a.visible)
    case Finished => s
  }

  function DialogStep(s: State, d: Dialog, h: Happening): State {
    match h
    case UnmountDialog => s.(dialog := None, epoch := s.epoch + 1)
    case Open =>
      Show(s, d.(active := true, error := false, attempt := if s.stored.Some? then s.stored else d.attempt))
    case Close(force) =>
      if d.flight.Some? && !force then s
      else Show(s, d.(active := false, quote := None, session := None, outcome := None)).(epoch := s.epoch + 1)
    case Edit =>
      if d.flight.Some? || d.outcome.Some? || d.quote.Some? then s else Show(s, d.(error := false))
    case CancelQuote => if d.flight.Some? then s else Show(s, d.(quote := None))
    case NewCandidate =>
      if d.flight.Some? || d.outcome.None? || d.outcome.value.Unknown? then s
      else Show(s, d.(attempt := None, session := None, outcome := None, quote := None, error := false)).(stored :=
        None)
    case Start(action, id, saves) =>
      if !d.active || d.flight.Some? || (d.attempt.None? && id in s.used) then s
      else if action.PrepareDraft? && (d.quote.Some? || d.outcome.Some?) then s
      else if action.SubmitDraft? && d.quote.None? then s
      else if action.QueryDraft? && d.attempt.None? then s else
      var i := |s.flights|;
      var value := if d.attempt.Some? then d.attempt.value else id;
      var f := Flight(s.epoch, action, value, d.attempt.None?, d.quote.Some?, value, Opening);
      var s' := Show(s, d.(flight := Some(i), error := false)).(flights := s.flights + [f], used := s.used + {value});
      // An open controller is used at once, without waiting.
      if d.session.Some? then SaveAndAct(s', i, d.session.value, saves) else s'
    case _ => s
  }

  function Next(s: State, h: Happening): State {
    match h
    case MountDialog => if s.dialog.None? then Show(s, BLANK) else s
    case Continue(i, a) => if i < |s.flights| then Resume(s, i, a) else s
    case Receipt(id, success) =>
      if id in s.sent && id !in s.results then s.(results := s.results[id := if success then Confirmed else Failed])
        else s
    case _ => if s.dialog.Some? then DialogStep(s, s.dialog.value, h) else s
  }

  function Run(s: State, hs: seq<Happening>): State
    decreases |hs|
  {
    if hs == [] then s else Run(Next(s, hs[0]), hs[1..])
  }

  /** The guard that matters: no action starts while a controller is open and no attempt is recorded. */
  predicate Linked(s: State, h: Happening) {
    h.Start? && s.dialog.Some? && s.dialog.value.session.Some? ==> s.dialog.value.attempt.Some?
  }

  predicate LinkedRun(s: State, hs: seq<Happening>)
    decreases |hs|
  {
    hs == [] || (Linked(s, hs[0]) && LinkedRun(Next(s, hs[0]), hs[1..]))
  }

  // ------------------------------------------------------------ invariant

  ghost predicate Pending(s: State, id: Id) { id in s.sent && id !in s.results }

  /** An unfinished flight of the present epoch works on the attempt in storage. */
  ghost predicate FlightInv(d: Dialog, i: nat, f: Flight) {
    d.active && d.flight == Some(i) && (d.quote.Some? ==> f.quoted) &&
    if f.stage.Opening? then (if f.isNew then d.attempt.None? else d.attempt == Some(f.value)) && d.session.None?
    else d.attempt == Some(f.client) && d.session == d.attempt
  }

  ghost predicate FlightsInv(dialog: Option<Dialog>, epoch: nat, flights: seq<Flight>) {
    forall i: nat :: i < |flights| ==>
      flights[i].epoch <= epoch &&
      (flights[i].epoch == epoch && !flights[i].stage.Finished? ==>
        dialog.Some? && FlightInv(dialog.value, i, flights[i]))
  }

  /** A controller may be open for an id that was refused, but then there is neither an attempt, nor a quote, nor an
      outcome. */
  ghost predicate DialogInv(s: State, d: Dialog) {
    (d.attempt.Some? ==> s.stored == d.attempt) && (d.active && d.attempt.None? ==> s.stored.None?) &&
    (d.session.Some? ==> d.active && (d.attempt.Some? ==> d.session == d.attempt)) &&
    (d.quote.Some? ==> d.attempt.Some? && d.quote == d.session) &&
    (d.outcome.Some? ==> d.attempt.Some?) &&
    (d.outcome.Some? && !d.outcome.value.Unknown? ==>
      d.attempt.value in s.results && d.outcome.value == s.results[d.attempt.value]) &&
    (d.flight.Some? ==> d.flight.value < |s.flights|)
  }

  ghost predicate Inv(s: State) {
    FlightsInv(s.dialog, s.epoch, s.flights) &&
    (forall id: Id :: id in s.results ==> id in s.sent && !s.results[id].Unknown?) &&
    (forall id: Id :: Pending(s, id) ==> s.stored == Some(id)) &&
    (s.dialog.Some? ==> DialogInv(s, s.dialog.value))
  }

  // ------------------------------------------------------------ every step keeps it

  /** What an outlived flight can change: its own stage, its component's busy flag, and the journal. */
  ghost predicate StaleEffect(s: State, i: nat, s': State) {
    i < |s.flights| == |s'.flights| &&
    s' == s.(dialog := s'.dialog, flights := s.flights[i := s'.flights[i]], journal := s'.journal) &&
    s'.flights[i] == s.flights[i].(stage := s'.flights[i].stage) && s.journal <= s'.journal &&
    (s.dialog.None? ==> s'.dialog.None?) &&
    (s.dialog.Some? ==>
      s'.dialog == Some(s.dialog.value) || (s.dialog.value.flight == Some(i) &&
      s'.dialog == Some(s.dialog.value.(flight := None))))
  }

  lemma StaleEnds(s: State, i: nat, visible: bool)
    requires i < |s.flights| && !Live(s, s.flights[i])
    ensures StaleEffect(s, i, Throw(s, i)) && StaleEffect(s, i, ShowOutcome(s, i, visible)) &&
      StaleEffect(s, i, Land(s, i))
  {
  }

  /** A flight of an earlier epoch only ends: it shows nothing, stores nothing and sends nothing. */
  lemma StaleResume(s: State, i: nat, a: Await)
    requires i < |s.flights| && !Live(s, s.flights[i])
    ensures StaleEffect(s, i, Resume(s, i, a))
  {
    StaleEnds(s, i, a.visible);
    if s.flights[i].stage.Writing? && !a.ok && a.visible {
      StaleEnds(s.(journal := s.journal + {s.flights[i].client}), i, a.visible);
    }
  }

  /** What a live flight may do: act on the attempt in storage, store one where there was none, or fail to. */
  ghost predicate LiveEffect(s: State, i: nat, s': State) {
    i < |s.flights| == |s'.flights| &&
    s'.dialog.Some? && DialogInv(s', s'.dialog.value) && s'.epoch == s.epoch && s'.results == s.results &&
    (s'.stored == s.stored || s.stored.None?) &&
    (s'.sent == s.sent || (s'.stored.Some? && s'.sent == s.sent + {s'.stored.value})) &&
    s'.flights == s.flights[i := s'.flights[i]] && s'.flights[i].epoch == s.epoch &&
    (s'.flights[i].stage.Finished? || FlightInv(s'.dialog.value, i, s'.flights[i]))
  }

  ghost predicate LiveState(s: State, i: nat) {
    i < |s.flights| && s.dialog.Some? && DialogInv(s, s.dialog.value) && Live(s, s.flights[i]) &&
      !s.flights[i].stage.Finished? &&
    FlightInv(s.dialog.value, i, s.flights[i])
  }

  lemma EndEffects(s: State, i: nat, visible: bool)
    requires LiveState(s, i)
    ensures LiveEffect(s, i, Throw(s, i))
    ensures !s.flights[i].stage.Opening? ==> LiveEffect(s, i, ShowOutcome(s, i, visible))
  {
  }

  lemma OpeningEffect(s: State, i: nat, a: Await)
    requires LiveState(s, i) && s.flights[i].stage.Opening?
    ensures LiveEffect(s, i, Resume(s, i, a))
  {
    if !a.ok { EndEffects(s, i, a.visible); }
  }

  lemma ActingEffect(s: State, i: nat, a: Await)
    requires LiveState(s, i) && s.flights[i].stage.Acting?
    ensures LiveEffect(s, i, Resume(s, i, a))
  {
    EndEffects(s, i, a.visible);
  }

  lemma WritingEffect(s: State, i: nat, a: Await)
    requires LiveState(s, i) && s.flights[i].stage.Writing?
    ensures LiveEffect(s, i, Resume(s, i, a))
  {
    EndEffects(s, i, a.visible);
    EndEffects(s.(journal := s.journal + {s.flights[i].client}), i, a.visible);
  }

  lemma LiveResume(s: State, i: nat, a: Await)
    requires LiveState(s, i)
    ensures LiveEffect(s, i, Resume(s, i, a))
  {
    match s.flights[i].stage
    case Opening => OpeningEffect(s, i, a);
    case Acting => ActingEffect(s, i, a);
    case Writing => WritingEffect(s, i, a);
    case Durable => EndEffects(s, i, a.visible);
    case Waiting => EndEffects(s, i, a.visible);
  }

  lemma ResumeKeeps(s: State, i: nat, a: Await)
    requires Inv(s) && i < |s.flights|
    ensures Inv(Resume(s, i, a))
  {
    var s', f := Resume(s, i, a), s.flights[i];
    if f.stage.Finished? {
      assert s' == s;
    } else if Live(s, f) {
      assert FlightInv(s.dialog.value, i, f);
      LiveResume(s, i, a);
      assert forall id: Id :: Pending(s', id) ==> Pending(s, id) || s'.stored == Some(id);
      assert FlightsInv(s'.dialog, s'.epoch, s'.flights);
    } else {
      StaleResume(s, i, a);
      assert forall id: Id :: Pending(s', id) <==> Pending(s, id);
      assert FlightsInv(s'.dialog, s'.epoch, s'.flights);
    }
  }

  lemma StartKeeps(s: State, d: Dialog, h: Happening)
    requires Inv(s) && s.dialog == Some(d) && Linked(s, h) && h.Start?
    ensures Inv(DialogStep(s, d, h))
  {
    var s' := DialogStep(s, d, h);
    assert forall id: Id :: Pending(s', id) <==> Pending(s, id);
  }

  lemma DialogKeeps(s: State, d: Dialog, h: Happening)
    requires Inv(s) && s.dialog == Some(d) && !h.Start?
    ensures Inv(DialogStep(s, d, h))
  {
    var s' := DialogStep(s, d, h);
    assert forall id: Id :: Pending(s', id) <==> Pending(s, id);
  }

  lemma NextKeeps(s: State, h: Happening)
    requires Inv(s) && Linked(s, h)
    ensures Inv(Next(s, h))
  {
    if h.Continue? {
      if h.flight < |s.flights| { ResumeKeeps(s, h.flight, h.await); }
    } else if h.Receipt? {
      assert forall id: Id :: Pending(Next(s, h), id) ==> Pending(s, id);
    } else if h.MountDialog? {
      assert forall id: Id :: Pending(Next(s, h), id) <==> Pending(s, id);
    } else if s.dialog.Some? {
      if h.Start? { StartKeeps(s, s.dialog.value, h); } else { DialogKeeps(s, s.dialog.value, h); }
    }
  }

  /** Refused saves included: the invariant survives every run in which no action starts on an open controller
      without an attempt. */
  lemma {:induction false} RunKeeps(s: State, hs: seq<Happening>)
    requires Inv(s) && LinkedRun(s, hs)
    ensures Inv(Run(s, hs))
    decreases |hs|
  {
    if hs != [] {
      NextKeeps(s, hs[0]);
      RunKeeps(Next(s, hs[0]), hs[1..]);
    }
  }

  // ------------------------------------------------------------ theorems

  /** A first start, or a restart with whatever an earlier life left in storage, journal and chain: what was sent is in
      the journal, receipts are final, and an unresolved draft is the stored one. */
  ghost predicate Begun(s: State) {
    s.dialog.None? && s.flights == [] && s.sent <= s.journal &&
    (forall id: Id :: id in s.results ==> id in s.sent && !s.results[id].Unknown?) &&
    (forall id: Id :: Pending(s, id) ==> s.stored == Some(id))
  }

  /** Every sent but unresolved draft is the one in storage, so there is at most one, through every close, hide, expiry,
      refusal and reopen. */
  lemma PendingIsStored(init: State, hs: seq<Happening>, id: Id)
    requires Begun(init) && LinkedRun(init, hs)
    ensures Pending(Run(init, hs), id) ==> Run(init, hs).stored == Some(id)
  {
    RunKeeps(init, hs);
  }

  /** While an id is stored the guard holds by itself: an open controller then has an attempt. */
  lemma StoredIsLinked(s: State, h: Happening)
    requires Inv(s) && s.stored.Some?
    ensures Linked(s, h)
  {
  }

  lemma StoredLeaves(s: State, h: Happening)
    requires Inv(s) && s.stored.Some?
    ensures Next(s, h).stored != s.stored ==> (
      h.NewCandidate? && s.dialog.Some? && s.dialog.value.attempt == s.stored && s.dialog.value.outcome.Some? &&
      !s.dialog.value.outcome.value.Unknown? && s.stored.value in s.results &&
      s.dialog.value.outcome.value == s.results[s.stored.value] && Next(s, h).stored.None?)
  {
    StoredIsLinked(s, h);
    if h.Continue? && h.flight < |s.flights| {
      if s.flights[h.flight].stage.Finished? {
      } else if Live(s, s.flights[h.flight]) {
        assert FlightInv(s.dialog.value, h.flight, s.flights[h.flight]);
        LiveResume(s, h.flight, h.await);
      } else {
        StaleResume(s, h.flight, h.await);
      }
    }
  }

  /** After any guarded run, whatever the next event: the logical id leaves storage only when a new candidate is
      asked for while a confirmed or failed outcome of that very id is on display. */
  lemma LogicalIdStable(init: State, hs: seq<Happening>, h: Happening)
    requires Begun(init) && LinkedRun(init, hs)
    ensures var s := Run(init, hs);
      s.stored.Some? && Next(s, h).stored != s.stored ==> (
        h.NewCandidate? && s.dialog.Some? && s.dialog.value.attempt == s.stored && s.dialog.value.outcome.Some? &&
        !s.dialog.value.outcome.value.Unknown? && s.stored.value in s.results &&
        s.dialog.value.outcome.value == s.results[s.stored.value] && Next(s, h).stored.None?)
  {
    RunKeeps(init, hs);
    var s := Run(init, hs);
    if s.stored.Some? && Next(s, h).stored != s.stored {
      StoredLeaves(s, h);
    }
  }

  lemma {:induction false} StoredKept(s: State, more: seq<Happening>)
    requires Inv(s) && s.stored.Some?
    ensures s.stored.value in Run(s, more).results || Run(s, more).stored == s.stored
    decreases |more|
  {
    if more != [] {
      StoredIsLinked(s, more[0]);
      NextKeeps(s, more[0]);
      if Next(s, more[0]).stored == s.stored {
        StoredKept(Next(s, more[0]), more[1..]);
      } else {
        StoredLeaves(s, more[0]);
        RunFrame(s, more);
      }
    }
  }

  /** The same at the scale of whole runs: an id stored by a guarded run stays the stored one through any continuation,
      guarded or not, until it has a receipt. */
  lemma UnsettledIdKept(init: State, hs: seq<Happening>, more: seq<Happening>, x: Id)
    requires Begun(init) && LinkedRun(init, hs) && Run(init, hs).stored == Some(x)
    ensures x in Run(init, hs + more).results || Run(init, hs + more).stored == Some(x)
  {
    RunKeeps(init, hs);
    RunSplit(init, hs, more);
    StoredKept(Run(init, hs), more);
  }

  lemma {:induction false} RunSplit(s: State, hs: seq<Happening>, more: seq<Happening>)
    ensures Run(s, hs + more) == Run(Run(s, hs), more)
    decreases |hs|
  {
    if hs == [] {
      assert hs + more == more;
    } else {
      assert (hs + more)[1..] == hs[1..] + more;
      RunSplit(Next(s, hs[0]), hs[1..], more);
    }
  }

  /** Storage accepts what this event saves, if anything. */
  predicate Saves(h: Happening) {
    (h.Start? ==> h.saves) && (h.Continue? ==> h.await.saves)
  }

  predicate HasAttempt(s: State) {
    s.dialog.Some? && s.dialog.value.session.Some? ==> s.dialog.value.attempt.Some?
  }

  lemma LiveKeepsAttempt(s: State, i: nat, a: Await)
    requires LiveState(s, i) && HasAttempt(s) && a.saves
    ensures HasAttempt(Resume(s, i, a))
  {
  }

  lemma SavesKeepAttempt(s: State, h: Happening)
    requires Inv(s) && HasAttempt(s) && Saves(h)
    ensures HasAttempt(Next(s, h))
  {
    if h.Continue? && h.flight < |s.flights| && !s.flights[h.flight].stage.Finished? {
      if Live(s, s.flights[h.flight]) {
        assert FlightInv(s.dialog.value, h.flight, s.flights[h.flight]);
        LiveKeepsAttempt(s, h.flight, h.await);
      } else {
        StaleResume(s, h.flight, h.await);
      }
    }
  }

  /** Only a refused save can break the guard: a run whose saves are all accepted is guarded. */
  lemma {:induction false} AcceptedSavesLink(s: State, hs: seq<Happening>)
    requires Inv(s) && HasAttempt(s) && forall i :: 0 <= i < |hs| ==> Saves(hs[i])
    ensures LinkedRun(s, hs)
    decreases |hs|
  {
    if hs != [] {
      NextKeeps(s, hs[0]);
      SavesKeepAttempt(s, hs[0]);
      AcceptedSavesLink(Next(s, hs[0]), hs[1..]);
    }
  }

  /** Receipts stay, the epoch only grows, and a flight keeps the epoch it started in. */
  ghost predicate After(s: State, s': State) {
    s.results.Keys <= s'.results.Keys && s.epoch <= s'.epoch && |s.flights| <= |s'.flights| &&
    forall j {:trigger s.flights[j]} {:trigger s'.flights[j]} :: 0 <= j < |s.flights| ==>
      s'.flights[j].epoch == s.flights[j].epoch
  }

  lemma NextFrame(s: State, h: Happening)
    ensures After(s, Next(s, h))
  {
  }

  lemma {:induction false} RunFrame(s: State, hs: seq<Happening>)
    ensures After(s, Run(s, hs))
    decreases |hs|
  {
    if hs != [] {
      NextFrame(s, hs[0]);
      RunFrame(Next(s, hs[0]), hs[1..]);
    }
  }

  /** What the dialog shows, apart from the busy flag. */
  ghost function Shown(s: State): Option<Dialog> {
    if s.dialog.None? then None else Some(s.dialog.value.(flight := None))
  }

  /** Whatever a flight that is not live brings back, it alters nothing shown, stores nothing and sends nothing. */
  lemma StaleCompletionInvisible(s: State, i: nat, a: Await)
    requires i < |s.flights| && !Live(s, s.flights[i])
    ensures var s' := Resume(s, i, a);
      Shown(s') == Shown(s) && s'.stored == s.stored && s'.sent == s.sent && s'.epoch == s.epoch
  {
    StaleResume(s, i, a);
  }

  /** Once the epoch has moved past a flight, it can come back after any run whatsoever, closed, reopened or
      remounted: it alters nothing shown, stores nothing and sends nothing. */
  lemma LateCompletionInvisible(s: State, hs: seq<Happening>, i: nat, a: Await)
    requires i < |s.flights| && s.flights[i].epoch < s.epoch
    ensures var s' := Run(s, hs);
      i < |s'.flights| &&
      Shown(Resume(s', i, a)) == Shown(s') && Resume(s', i, a).stored == s'.stored && Resume(s', i, a).sent == s'.sent
  {
    RunFrame(s, hs);
    StaleCompletionInvisible(Run(s, hs), i, a);
  }

  predicate EpochsPast(s: State) {
    forall i :: 0 <= i < |s.flights| ==> s.flights[i].epoch <= s.epoch
  }

  lemma {:induction false} RunEpochs(s: State, hs: seq<Happening>)
    requires EpochsPast(s)
    ensures EpochsPast(Run(s, hs))
    decreases |hs|
  {
    if hs != [] {
      NextEpochs(s, hs[0]);
      RunEpochs(Next(s, hs[0]), hs[1..]);
    }
  }

  lemma NextEpochs(s: State, h: Happening)
    requires EpochsPast(s)
    ensures EpochsPast(Next(s, h))
  {
    NextFrame(s, h);
  }

  /** After any run, every close, hide, expiry and unmount moves the epoch past all flights there are. */
  lemma ClosingEndsTheEpoch(init: State, hs: seq<Happening>, h: Happening, i: nat)
    requires Begun(init) && Run(init, hs).dialog.Some? && i < |Run(init, hs).flights|
    requires h == UnmountDialog || h == Close(true) || (h == Close(false) && Run(init, hs).dialog.value.flight.None?)
    ensures var s' := Next(Run(init, hs), h); i < |s'.flights| && s'.flights[i].epoch < s'.epoch
  {
    RunEpochs(init, hs);
  }

  /** A cancelled quote cannot be submitted: the submit button does nothing until a new quote is shown. */
  lemma CancelledNotSubmitted(s: State, d: Dialog, id: Id, saves: bool)
    requires s.dialog == Some(d) && d.flight.None?
    ensures Next(s, CancelQuote) == s.(dialog := Some(d.(quote := None)))
    ensures Next(Next(s, CancelQuote), Start(SubmitDraft, id, saves)) == Next(s, CancelQuote)
  {
  }

  /** Closing and reopening starts clean: the stored draft is back, without quote, controller, outcome or error. */
  lemma ReopenedClean(s: State, d: Dialog, force: bool)
    requires s.dialog == Some(d) && (d.flight.None? || force)
    ensures Next(Next(s, Close(force)), Open) == s.(epoch := s.epoch + 1, dialog := Some(Dialog(
      true, if s.stored.Some? then s.stored else d.attempt, None, None, None, false, d.flight)))
  {
  }

  /** A new candidate starts clean, and only after a confirmed or failed outcome. */
  lemma NewCandidateClean(s: State, d: Dialog)
    requires s.dialog == Some(d)
    ensures Next(s, NewCandidate) ==
      if d.flight.None? && (d.outcome == Some(Confirmed) || d.outcome == Some(Failed))
      then s.(stored := None, dialog := Some(Dialog(d.active, None, None, None, None, false, None))) else s
  {
  }

  /** An error is shown by a live action that failed, and goes away by reopening, by editing an idle form or by the next
      action. */
  lemma ErrorsShown(s: State, d: Dialog, i: nat, a: Await)
    requires s.dialog == Some(d)
    ensures i < |s.flights| && Live(s, s.flights[i]) && s.flights[i].stage.Acting? && !a.ok ==>
      Next(s, Continue(i, a)).dialog.Some? && Next(s, Continue(i, a)).dialog.value.error
    ensures Next(s, Open).dialog.Some? && !Next(s, Open).dialog.value.error
    ensures d.flight.None? && d.outcome.None? && d.quote.None? ==> Next(s, Edit) == Show(s, d.(error := false))
    ensures d.flight.Some? || d.outcome.Some? || d.quote.Some? ==> Next(s, Edit) == s
  {
  }

  // ------------------------------------------------------------ the other half: why the guard

  /** A refused save leaves the controller open for an id that is recorded nowhere. */
  lemma RefusedSave(s: State, d: Dialog, id: Id, visible: bool)
    requires Inv(s) && s.dialog == Some(d) && d.active && d.attempt.None? && d.session.None? && d.flight.None? &&
      id !in s.used
    ensures var s' := Next(Next(s, Start(PrepareDraft, id, true)), Continue(|s.flights|, Await(true, visible, false)));
      Inv(s') && s'.stored.None? && s'.journal == s.journal && s'.results == s.results && s'.used == s.used + {id} &&
      s'.dialog == Some(d.(session := Some(id), error := true))
  {
    var s0 := Next(s, Start(PrepareDraft, id, true));
    NextKeeps(s, Start(PrepareDraft, id, true));
    assert s0.flights[|s.flights|] == Flight(s.epoch, PrepareDraft, id, true, false, id, Opening);
    NextKeeps(s0, Continue(|s.flights|, Await(true, visible, false)));
  }

  /** The action after it stores another id and asks the controller for a quote, which is for the first. */
  lemma UnlinkedPrepare(s: State, d: Dialog, id: Id, other: Id)
    requires Inv(s) && s.dialog == Some(d) && d.session == Some(id) && d.attempt.None? && d.flight.None?
    requires id !in s.journal && other !in s.used
    ensures var n := |s.flights|;
      var s' := Next(Next(s, Start(PrepareDraft, other, true)), Continue(n, Await(true, true, true)));
      s'.dialog == Some(d.(attempt := Some(other), quote := Some(id), error := false)) && s'.stored == Some(other) &&
      |s'.flights| == n + 1 && s'.epoch == s.epoch && s'.journal == s.journal && s'.results == s.results &&
        s'.used == s.used + {other}
  {
    var n := |s.flights|;
    var s1 := Next(s, Start(PrepareDraft, other, true));
    assert s1.flights == s.flights + [Flight(s.epoch, PrepareDraft, other, true, false, id, Acting)];
    assert s1.dialog == Some(d.(attempt := Some(other), flight := Some(n), error := false));
  }

  lemma RunCons(s: State, h: Happening, rest: seq<Happening>)
    ensures Run(s, [h] + rest) == Run(Next(s, h), rest)
  {
    assert ([h] + rest)[1..] == rest;
  }

  /** Confirming a quote sends the id it is for, whatever attempt is recorded. */
  lemma SubmitSends(s: State, d: Dialog, id: Id, other: Id) returns (hs: seq<Happening>)
    requires s.dialog == Some(d) && d.active && d.session == Some(id) && d.quote == Some(id) &&
      d.attempt == Some(other) && d.flight.None?
    requires s.stored == Some(other) && id !in s.journal
    ensures var n, s' := |s.flights|, Run(s, hs);
      s'.stored == Some(other) && s'.sent == s.sent + {id} && s'.results == s.results && |s'.flights| == n + 1 &&
      s'.flights[n].stage.Waiting? && s'.flights[n].client == id && Live(s', s'.flights[n]) &&
      s'.dialog.value.flight == Some(n) && s'.dialog.value.attempt == d.attempt
  {
    var n := |s.flights|;
    var submit, go := Start(SubmitDraft, other, true), Continue(n, Await(true, true, true));
    var s1 := Next(s, submit);
    assert s1.flights == s.flights + [Flight(s.epoch, SubmitDraft, other, false, true, id, Acting)] &&
      s1.epoch == s.epoch;
    var s2 := Next(s1, go);
    assert s2.flights[n].stage.Writing? && s2.flights[n].client == id && Live(s2, s2.flights[n]);
    var s3 := Next(s2, go);
    assert s3.flights[n].stage.Durable? && s3.flights[n].client == id && Live(s3, s3.flights[n]);
    RunCons(s3, go, []);
    RunCons(s2, go, [go] + []);
    RunCons(s1, go, [go] + ([go] + []));
    RunCons(s, submit, [go] + ([go] + ([go] + [])));
    hs := [submit] + ([go] + ([go] + ([go] + [])));
  }

  /** Its receipt arrives, is shown, and a new candidate forgets the stored id. */
  lemma ReceiptClears(s: State, id: Id, other: Id, n: nat) returns (hs: seq<Happening>)
    requires n < |s.flights| && s.dialog.Some? && s.dialog.value.flight == Some(n) && s.stored == Some(other)
    requires s.flights[n].stage.Waiting? && s.flights[n].client == id && Live(s, s.flights[n])
    requires id in s.sent && id !in s.results
    ensures var s' := Run(s, hs); s'.stored.None? && s'.results == s.results[id := Confirmed] && s'.sent == s.sent
  {
    var receipt, go := Receipt(id, true), Continue(n, Await(true, true, true));
    var s1 := Next(s, receipt);
    assert s1 == s.(results := s.results[id := Confirmed]);
    var s2 := Next(s1, go);
    assert s2.dialog.Some? && s2.dialog.value.outcome == Some(Confirmed) && s2.dialog.value.flight.None?;
    RunCons(s2, NewCandidate, []);
    RunCons(s1, go, [NewCandidate] + []);
    RunCons(s, receipt, [go] + ([NewCandidate] + []));
    hs := [receipt] + ([go] + ([NewCandidate] + []));
  }

  /** A controller open for an id that is recorded nowhere, with nothing under way: the guard fails for the next
      action. */
  ghost predicate Unlinked(s: State, id: Id) {
    Inv(s) && s.dialog.Some? && s.dialog.value.session == Some(id) && s.dialog.value.attempt.None? &&
    s.dialog.value.flight.None? && id !in s.journal && id !in s.results
  }

  /** In every such state an accepted action stores another id; one continuation leaves the first id pending although
      the other is stored, and a longer one forgets the other although it was never sent and has no receipt. */
  lemma UnlinkedStartLosesTheId(s: State, id: Id, other: Id)
    returns (hs: seq<Happening>, send: seq<Happening>, end: seq<Happening>)
    requires Unlinked(s, id) && other !in s.used && other !in s.sent && id != other
    ensures hs != [] && !Linked(s, hs[0]) && Run(s, hs).stored == Some(other)
    ensures Pending(Run(s, hs + send), id) && Run(s, hs + send).stored == Some(other)
    ensures var s' := Run(s, hs + send + end); s'.stored.None? && other !in s'.results && other !in s'.sent
  {
    var n := |s.flights|;
    var prepare, quote := Start(PrepareDraft, other, true), Continue(n, Await(true, true, true));
    UnlinkedPrepare(s, s.dialog.value, id, other);
    RunCons(Next(s, prepare), quote, []);
    RunCons(s, prepare, [quote] + []);
    hs := [prepare] + ([quote] + []);
    var quoted := Run(s, hs);
    send := SubmitSends(quoted, quoted.dialog.value, id, other);
    var sent := Run(quoted, send);
    end := ReceiptClears(sent, id, other, n + 1);
    RunSplit(s, hs, send);
    RunSplit(s, hs + send, end);
  }

  /** And such states are reached from every start with nothing stored, by opening the dialog and one refused save. */
  lemma RefusedSaveUnlinks(init: State, id: Id, visible: bool) returns (hs: seq<Happening>)
    requires Begun(init) && init.stored.None? && id !in init.used && id !in init.journal && id !in init.results
    ensures LinkedRun(init, hs) && Unlinked(Run(init, hs), id) && Run(init, hs).used == init.used + {id}
  {
    var s1 := Next(init, MountDialog);
    var s2 := Next(s1, Open);
    assert s2 == init.(dialog := Some(BLANK.(active := true)));
    NextKeeps(init, MountDialog);
    NextKeeps(s1, Open);
    RefusedSave(s2, s2.dialog.value, id, visible);
    var start, refuse := Start(PrepareDraft, id, true), Continue(0, Await(true, visible, false));
    var s3 := Next(s2, start);
    RunCons(s3, refuse, []);
    RunCons(s2, start, [refuse] + []);
    RunCons(s1, Open, [start] + ([refuse] + []));
    RunCons(init, MountDialog, [Open] + ([start] + ([refuse] + [])));
    LinkedCons(s3, refuse, []);
    LinkedCons(s2, start, [refuse] + []);
    LinkedCons(s1, Open, [start] + ([refuse] + []));
    LinkedCons(init, MountDialog, [Open] + ([start] + ([refuse] + [])));
    hs := [MountDialog] + ([Open] + ([start] + ([refuse] + [])));
  }

  lemma LinkedCons(s: State, h: Happening, rest: seq<Happening>)
    requires Linked(s, h) && LinkedRun(Next(s, h), rest)
    ensures LinkedRun(s, [h] + rest)
  {
    assert ([h] + rest)[1..] == rest;
  }
}
