/**
 * Drafts claimed in the journal and never sent: how a close makes them, that nothing ends them,
 * and exactly when a stored draft can still give way to a new candidate.
 */
module OkrDraftClaims {
  import opened Common
  import opened Outcomes
  import opened OkrDraft

  /** In the journal, never sent, and no live flight about to send it; no outcome on display is terminal. */
  ghost predicate Stuck(s: State, id: Id) {
    s.stored == Some(id) && id in s.journal && id !in s.sent &&
    (s.dialog.Some? && s.dialog.value.active ==>
      forall i: nat :: i < |s.flights| && s.flights[i].epoch == s.epoch ==> !s.flights[i].stage.Durable?)
  }

  lemma StuckStep(s: State, h: Happening, id: Id)
    requires Inv(s) && Stuck(s, id)
    ensures Stuck(Next(s, h), id)
  {
    StoredIsLinked(s, h);
    if Next(s, h).stored != s.stored {
      StoredLeaves(s, h);
    }
    if h.Continue? && h.flight < |s.flights| && !s.flights[h.flight].stage.Finished? {
      if Live(s, s.flights[h.flight]) {
        assert FlightInv(s.dialog.value, h.flight, s.flights[h.flight]);
      } else {
        StaleResume(s, h.flight, h.await);
      }
    }
  }

  lemma {:induction false} StuckKept(s: State, hs: seq<Happening>, id: Id)
    requires Inv(s) && Stuck(s, id)
    ensures Run(s, hs).stored == Some(id) && id !in Run(s, hs).sent
    decreases |hs|
  {
    if hs != [] {
      StoredIsLinked(s, hs[0]);
      NextKeeps(s, hs[0]);
      StuckStep(s, hs[0], id);
      StuckKept(Next(s, hs[0]), hs[1..], id);
    }
  }

  /** What was sent is in the journal, and so is what is about to be; that was never sent and is claimed once. */
  ghost predicate Recorded(s: State) {
    s.sent <= s.journal &&
    (forall i :: 0 <= i < |s.flights| && s.flights[i].stage.Durable? ==>
      s.flights[i].client in s.journal && s.flights[i].client !in s.sent) &&
    (forall i, j :: 0 <= i < j < |s.flights| && s.flights[i].stage.Durable? && s.flights[j].stage.Durable? ==>
      s.flights[i].client != s.flights[j].client)
  }

  lemma EndsRecorded(s: State, i: nat, visible: bool)
    requires Recorded(s) && i < |s.flights|
    ensures Recorded(Throw(s, i)) && Recorded(ShowOutcome(s, i, visible)) && Recorded(Land(s, i))
  {
  }

  lemma OpeningRecorded(s: State, i: nat, a: Await)
    requires Recorded(s) && i < |s.flights| && s.flights[i].stage.Opening?
    ensures Recorded(Resume(s, i, a))
  {
    EndsRecorded(s, i, a.visible);
  }

  lemma ActingRecorded(s: State, i: nat, a: Await)
    requires Recorded(s) && i < |s.flights| && s.flights[i].stage.Acting?
    ensures Recorded(Resume(s, i, a))
  {
    EndsRecorded(s, i, a.visible);
  }

  lemma WritingRecorded(s: State, i: nat, a: Await)
    requires Recorded(s) && i < |s.flights| && s.flights[i].stage.Writing?
    ensures Recorded(Resume(s, i, a))
  {
    EndsRecorded(s, i, a.visible);
    var s' := s.(journal := s.journal + {s.flights[i].client});
    assert Recorded(s');
    EndsRecorded(s', i, a.visible);
  }

  lemma ResumeRecorded(s: State, i: nat, a: Await)
    requires Recorded(s) && i < |s.flights|
    ensures Recorded(Resume(s, i, a))
  {
    match s.flights[i].stage
    case Opening => OpeningRecorded(s, i, a);
    case Acting => ActingRecorded(s, i, a);
    case Writing => WritingRecorded(s, i, a);
    case Durable => EndsRecorded(s, i, a.visible);
    case Waiting => EndsRecorded(s, i, a.visible);
    case Finished =>
  }

  lemma NextRecorded(s: State, h: Happening)
    requires Recorded(s)
    ensures Recorded(Next(s, h))
  {
    if h.Continue? && h.flight < |s.flights| {
      ResumeRecorded(s, h.flight, h.await);
    }
  }

  lemma {:induction false} RunRecorded(s: State, hs: seq<Happening>)
    requires Recorded(s)
    ensures Recorded(Run(s, hs))
    decreases |hs|
  {
    if hs != [] {
      NextRecorded(s, hs[0]);
      RunRecorded(Next(s, hs[0]), hs[1..]);
    }
  }

  /** A state some guarded run reaches from a start. */
  ghost predicate Reached(s: State) {
    exists init: State, hs: seq<Happening> :: Begun(init) && LinkedRun(init, hs) && s == Run(init, hs)
  }

  lemma ReachedSound(s: State)
    requires Reached(s)
    ensures Inv(s) && Recorded(s)
  {
    var init: State, hs: seq<Happening> :| Begun(init) && LinkedRun(init, hs) && s == Run(init, hs);
    RunKeeps(init, hs);
    RunRecorded(init, hs);
  }

  /** The one flight of the present epoch stands at a stage. */
  ghost predicate LiveAt(s: State, i: nat, stage: Stage) {
    i < |s.flights| && Live(s, s.flights[i]) && s.flights[i].stage == stage
  }

  /** A claimed draft the chain never took stays stored for good: it can be neither sent nor given up. */
  lemma StuckForever(s: State, hs: seq<Happening>, id: Id)
    requires Reached(s) && Stuck(s, id)
    ensures Run(s, hs).stored == Some(id) && id !in Run(s, hs).sent
  {
    ReachedSound(s);
    StuckKept(s, hs, id);
  }

  /** First way in: hiding, closing by force or unmounting between the claim and the broadcast. */
  lemma ClosingAfterClaim(s: State, h: Happening, i: nat)
    requires Reached(s) && LiveAt(s, i, Durable) && (h == UnmountDialog || h == Close(true))
    ensures Stuck(Next(s, h), s.flights[i].client)
  {
    ReachedSound(s);
    assert FlightInv(s.dialog.value, i, s.flights[i]);
  }

  /** Second way in: the same while the claim is being written, when it then succeeds. */
  lemma ClosingDuringClaim(s: State, h: Happening, i: nat, a: Await)
    requires Reached(s) && LiveAt(s, i, Writing) && (h == UnmountDialog || h == Close(true))
    requires a.ok && s.flights[i].client !in s.journal
    ensures Stuck(Next(Next(s, h), Continue(i, a)), s.flights[i].client)
  {
    ReachedSound(s);
    assert FlightInv(s.dialog.value, i, s.flights[i]);
  }

  /** Third way in: a claim that became durable although it was reported as failed. */
  lemma ClaimReportedFailed(s: State, i: nat, a: Await)
    requires Reached(s) && LiveAt(s, i, Writing) && !a.ok && a.visible && s.flights[i].client !in s.journal
    ensures Stuck(Next(s, Continue(i, a)), s.flights[i].client)
  {
    ReachedSound(s);
    OnlyLive(s, i);
  }

  /** Fourth way in: a refused broadcast. */
  lemma BroadcastRefused(s: State, i: nat, a: Await)
    requires Reached(s) && LiveAt(s, i, Durable) && !a.ok
    ensures Stuck(Next(s, Continue(i, a)), s.flights[i].client)
  {
    ReachedSound(s);
    OnlyLive(s, i);
  }

  lemma OnlyLive(s: State, i: nat)
    requires Inv(s) && i < |s.flights| && Live(s, s.flights[i]) && !s.flights[i].stage.Finished?
    ensures FlightInv(s.dialog.value, i, s.flights[i])
    ensures forall j: nat :: j < |s.flights| && j != i && s.flights[j].epoch == s.epoch ==> s.flights[j].stage.Finished?
  {
    assert FlightInv(s.dialog.value, i, s.flights[i]);
    forall j: nat | j < |s.flights| && j != i && s.flights[j].epoch == s.epoch ensures s.flights[j].stage.Finished? {
      assert s.flights[j].stage.Finished? || FlightInv(s.dialog.value, j, s.flights[j]);
    }
  }

  /** A dialog just opened on the stored attempt. */
  ghost predicate Reopened(s: State, id: Id) {
    s.stored == Some(id) && s.dialog == Some(BLANK.(active := true, attempt := Some(id)))
  }

  lemma Reopens(s: State, id: Id) returns (hs: seq<Happening>)
    requires s.stored == Some(id)
    ensures var s' := Run(s, hs);
      Reopened(s', id) && s' == s.(dialog := s'.dialog, epoch := s'.epoch)
  {
    var s1 := Next(s, UnmountDialog);
    RunCons(s, UnmountDialog, [MountDialog] + ([Open] + []));
    RunCons(s1, MountDialog, [Open] + []);
    RunCons(Next(s1, MountDialog), Open, []);
    hs := [UnmountDialog] + ([MountDialog] + ([Open] + []));
  }

  /** A resolved draft: query it and start over. */
  lemma QueryClears(s: State, id: Id) returns (hs: seq<Happening>)
    requires Reopened(s, id) && id in s.journal && id in s.results && !s.results[id].Unknown?
    ensures Run(s, hs).stored.None?
  {
    var n, good := |s.flights|, Await(true, true, true);
    var query, go := Start(QueryDraft, id, true), Continue(n, good);
    var s1 := Next(s, query);
    assert s1.flights == s.flights + [Flight(s.epoch, QueryDraft, id, false, false, id, Opening)] &&
      s1.epoch == s.epoch;
    var s2 := Next(s1, go);
    assert s2.flights[n].stage.Acting? && s2.flights[n].client == id && Live(s2, s2.flights[n]) &&
      s2.results == s.results && s2.journal == s.journal;
    var s3 := Next(s2, go);
    assert s3.dialog.Some? && s3.dialog.value.outcome == Some(s.results[id]) && s3.dialog.value.flight.None?;
    RunCons(s, query, [go] + ([go] + ([NewCandidate] + [])));
    RunCons(s1, go, [go] + ([NewCandidate] + []));
    RunCons(s2, go, [NewCandidate] + []);
    RunCons(s3, NewCandidate, []);
    hs := [query] + ([go] + ([go] + ([NewCandidate] + [])));
  }

  /** A draft that was never claimed: quote it. */
  lemma PrepareQuotes(s: State, id: Id) returns (hs: seq<Happening>)
    requires Reopened(s, id) && id !in s.journal
    ensures var s' := Run(s, hs);
      s'.stored == Some(id) && s'.dialog == Some(BLANK.(active := true, attempt := Some(id), session := Some(id),
        quote := Some(id))) &&
      s'.journal == s.journal && s'.results == s.results && s'.sent == s.sent
  {
    var n, good := |s.flights|, Await(true, true, true);
    var prepare, go := Start(PrepareDraft, id, true), Continue(n, good);
    var s1 := Next(s, prepare);
    assert s1.flights == s.flights + [Flight(s.epoch, PrepareDraft, id, false, false, id, Opening)] &&
      s1.epoch == s.epoch;
    var s2 := Next(s1, go);
    assert s2.flights[n].stage.Acting? && s2.flights[n].client == id && Live(s2, s2.flights[n]) &&
      s2.journal == s.journal;
    RunCons(s, prepare, [go] + ([go] + []));
    RunCons(s1, go, [go] + []);
    RunCons(s2, go, []);
    hs := [prepare] + ([go] + ([go] + []));
  }

  lemma SubmitClears(s: State, id: Id) returns (hs: seq<Happening>)
    requires s.stored == Some(id) && s.dialog == Some(BLANK.(active := true, attempt := Some(id),
      session := Some(id), quote := Some(id)))
    requires id !in s.journal && id !in s.results
    ensures Run(s, hs).stored.None?
  {
    var send := SubmitSends(s, s.dialog.value, id, id);
    var clear := ReceiptClears(Run(s, send), id, id, |s.flights|);
    RunSplit(s, send, clear);
    hs := send + clear;
  }

  lemma Clears(s: State, id: Id) returns (hs: seq<Happening>)
    requires Inv(s) && Recorded(s) && s.stored == Some(id) && (id !in s.journal || id in s.sent)
    ensures Run(s, hs).stored.None?
  {
    var receipt := Receipt(id, true);
    NextKeeps(s, receipt);
    var s1 := Next(s, receipt);
    var open := Reopens(s1, id);
    var s2 := Run(s1, open);
    var rest;
    if id in s.sent {
      rest := QueryClears(s2, id);
    } else {
      var quote := PrepareQuotes(s2, id);
      var submit := SubmitClears(Run(s2, quote), id);
      RunSplit(s2, quote, submit);
      rest := quote + submit;
    }
    RunSplit(s1, open, rest);
    RunCons(s, receipt, open + rest);
    hs := [receipt] + (open + rest);
  }

  /** In every reached state: exactly when there is a way to a new candidate once the dialog is closed, hidden or gone,
      unless the chain never took a claimed draft. */
  lemma ClearableExactly(s: State, id: Id)
    requires Reached(s) && s.stored == Some(id) && (s.dialog.Some? ==> !s.dialog.value.active)
    ensures (exists hs :: Run(s, hs).stored.None?) <==> !(id in s.journal && id !in s.sent)
  {
    ReachedSound(s);
    if id in s.journal && id !in s.sent {
      forall hs ensures !Run(s, hs).stored.None? {
        StuckKept(s, hs, id);
      }
    } else {
      var hs := Clears(s, id);
      assert Run(s, hs).stored.None?;
    }
  }
}
