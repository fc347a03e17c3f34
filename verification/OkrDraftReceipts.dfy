/**
 * What the OKR draft dialog tells its user: a terminal outcome on display is the receipt the chain gave that very
 * draft, a query answers exactly what journal and chain hold, and an undisturbed draft runs to its receipt.
 */
module OkrDraftReceipts {
  import opened Common
  import opened Outcomes
  import opened OkrDraft

  /** Happening `k` is the one that gives `id` its receipt. */
  ghost predicate Settles(s: State, hs: seq<Happening>, k: nat, id: Id, success: bool) {
    k < |hs| && hs[k] == Receipt(id, success) && id in Run(s, hs[..k]).sent && id !in Run(s, hs[..k]).results
  }

  lemma SettlesLater(s: State, hs: seq<Happening>, k: nat, id: Id, success: bool)
    requires hs != []
    ensures Settles(s, hs, k + 1, id, success) <==> Settles(Next(s, hs[0]), hs[1..], k, id, success)
  {
    if k + 1 < |hs| {
      RunCons(s, hs[0], hs[1..][..k]);
      assert hs[..k + 1] == [hs[0]] + hs[1..][..k];
    }
  }

  /** Awaits and clicks leave receipts alone. */
  lemma OnlyReceipt(s: State, h: Happening)
    requires !h.Receipt?
    ensures Next(s, h).results == s.results
  {
  }

  /** A receipt is never replaced, and a new one says what the happening that brought it said. */
  lemma {:induction false} ReceiptGiven(s: State, hs: seq<Happening>, id: Id)
    ensures var after := Run(s, hs).results;
      (id in s.results ==> id in after && after[id] == s.results[id]) &&
      (id !in s.results && id in after ==>
        exists k: nat, success :: Settles(s, hs, k, id, success) && after[id] == if success then Confirmed else Failed)
    decreases |hs|
  {
    if hs != [] {
      var h, rest, after := hs[0], hs[1..], Run(s, hs).results;
      ReceiptGiven(Next(s, h), rest, id);
      if !h.Receipt? { OnlyReceipt(s, h); }
      if id !in s.results && id in after {
        if id in Next(s, h).results {
          assert hs[..0] == [];
          assert Settles(s, hs, 0, id, h.success);
        } else {
          var k: nat, success :| Settles(Next(s, h), rest, k, id, success) &&
            after[id] == if success then Confirmed else Failed;
          SettlesLater(s, hs, k, id, success);
          assert Settles(s, hs, k + 1, id, success);
        }
      }
    }
  }

  /** Every happening that settles a draft decides its receipt for good. */
  lemma {:induction false} SettledAs(s: State, hs: seq<Happening>, k: nat, id: Id, success: bool)
    requires Settles(s, hs, k, id, success)
    ensures id !in s.results && id in Run(s, hs).results &&
      Run(s, hs).results[id] == if success then Confirmed else Failed
    decreases |hs|
  {
    if k == 0 {
      assert hs[..0] == [];
      ReceiptGiven(Next(s, hs[0]), hs[1..], id);
    } else {
      SettlesLater(s, hs, k - 1, id, success);
      SettledAs(Next(s, hs[0]), hs[1..], k - 1, id, success);
      if !hs[0].Receipt? { OnlyReceipt(s, hs[0]); }
    }
  }

  /** In every run, guarded or not, a draft without an earlier receipt is confirmed exactly when the chain settled it
      with success, and failed exactly when the chain settled it without. */
  lemma ReceiptExactly(s: State, hs: seq<Happening>, id: Id, success: bool)
    requires id !in s.results
    ensures var after := Run(s, hs).results;
      (id in after && after[id] == if success then Confirmed else Failed) <==>
        exists k: nat :: Settles(s, hs, k, id, success)
  {
    ReceiptGiven(s, hs, id);
    if k: nat :| Settles(s, hs, k, id, success) {
      SettledAs(s, hs, k, id, success);
    }
  }

  /** In every guarded run, an outcome on display that is not unknown is the receipt of the draft on display: the one it
      started with, or the one the chain settled it with during the run. */
  lemma ShownOutcomeIsTheReceipt(init: State, hs: seq<Happening>)
    requires Begun(init) && LinkedRun(init, hs)
    ensures var s := Run(init, hs);
      s.dialog.Some? && s.dialog.value.outcome.Some? && s.dialog.value.outcome != Some(Unknown) ==> (
        var d := s.dialog.value;
        d.attempt.Some? && var id := d.attempt.value;
        s.stored == Some(id) && id in s.results && d.outcome == Some(s.results[id]) &&
        (if id in init.results then d.outcome == Some(init.results[id])
         else exists k: nat, success :: (
           Settles(init, hs, k, id, success) && d.outcome == Some(if success then Confirmed else Failed))))
  {
    RunKeeps(init, hs);
    var s := Run(init, hs);
    if s.dialog.Some? && s.dialog.value.attempt.Some? {
      ReceiptGiven(init, hs, s.dialog.value.attempt.value);
    }
  }

  /** A query through an open controller shows the receipt of its draft if the chain shows one, forgets the outcome
      with an error exactly when no claim of it is in the journal, and otherwise says that nothing is known. */
  lemma QueryExactly(s: State, d: Dialog, id: Id, any: Id, visible: bool)
    requires s.dialog == Some(d) && d.active && d.flight.None? && d.attempt == Some(id) && d.session == Some(id)
    ensures var s' := Next(Next(s, Start(QueryDraft, any, true)), Continue(|s.flights|, Await(true, visible, true)));
      s'.dialog == Some(
        if id !in s.journal
        then d.(outcome := None, error := true, session := if d.quote.Some? then Some(id) else None)
        else if visible && id in s.results then d.(quote := None, outcome := Some(s.results[id]), error := false)
        else d.(quote := None, outcome := Some(Unknown), error := false))
  {
    var s1 := Next(s, Start(QueryDraft, any, true));
    assert s1.flights[|s.flights|] == Flight(s.epoch, QueryDraft, id, false, d.quote.Some?, id, Acting);
  }

  // ------------------------------------------------------------ an undisturbed draft

  /** Open the dialog and have a new draft stored. */
  lemma Stores(init: State, id: Id)
    requires Begun(init) && init.stored.None? && id !in init.used
    ensures var yes := Continue(0, Await(true, true, true));
      Next(Next(Next(Next(init, MountDialog), Open), Start(PrepareDraft, id, true)), yes) == init.(
        stored := Some(id), used := init.used + {id},
        flights := [Flight(init.epoch, PrepareDraft, id, true, false, id, Acting)],
        dialog := Some(BLANK.(active := true, attempt := Some(id), session := Some(id), flight := Some(0))))
  {
    var s2 := Next(Next(init, MountDialog), Open);
    assert s2 == Show(init, BLANK.(active := true));
    var s3 := Next(s2, Start(PrepareDraft, id, true));
    assert s3.flights == [Flight(init.epoch, PrepareDraft, id, true, false, id, Opening)];
    assert s3.dialog == Some(BLANK.(active := true, flight := Some(0)));
  }

  /** Open the dialog, and have a new draft stored and quoted. */
  lemma Quotes(init: State, id: Id) returns (hs: seq<Happening>)
    requires Begun(init) && init.stored.None? && id !in init.used && id !in init.journal
    ensures var s := Run(init, hs);
      s == init.(stored := Some(id), used := init.used + {id}, flights := s.flights, dialog := s.dialog) &&
      s.dialog == Some(BLANK.(active := true, attempt := Some(id), session := Some(id), quote := Some(id)))
  {
    var start, yes := Start(PrepareDraft, id, true), Continue(0, Await(true, true, true));
    var s1 := Next(init, MountDialog);
    var s2 := Next(s1, Open);
    var s3 := Next(s2, start);
    var s4 := Next(s3, yes);
    Stores(init, id);
    RunCons(s4, yes, []);
    RunCons(s3, yes, [yes] + []);
    RunCons(s2, start, [yes] + ([yes] + []));
    RunCons(s1, Open, [start] + ([yes] + ([yes] + [])));
    RunCons(init, MountDialog, [Open] + ([start] + ([yes] + ([yes] + []))));
    hs := [MountDialog] + ([Open] + ([start] + ([yes] + ([yes] + []))));
  }

  /** The receipt arrives and is shown. */
  lemma ShowsReceipt(s: State, id: Id, n: nat, success: bool) returns (hs: seq<Happening>)
    requires n < |s.flights| && s.flights[n].stage.Waiting? && s.flights[n].client == id && Live(s, s.flights[n])
    requires id in s.sent && id !in s.results && s.dialog.value.flight == Some(n)
    ensures var status := if success then Confirmed else Failed; var s' := Run(s, hs);
      s'.dialog.Some? && s'.dialog.value.outcome == Some(status) && s'.stored == s.stored && s'.sent == s.sent &&
      s'.dialog.value.attempt == s.dialog.value.attempt && s'.results == s.results[id := status] &&
      s'.dialog.value.flight.None?
  {
    var receipt, go := Receipt(id, success), Continue(n, Await(true, true, true));
    RunCons(Next(s, receipt), go, []);
    RunCons(s, receipt, [go] + []);
    hs := [receipt] + ([go] + []);
  }

  /** From every start with nothing stored, a new draft can be quoted, claimed and sent; the dialog then shows whatever
      the chain says, and the draft stays stored until a new candidate is asked for. */
  lemma DraftCompletes(init: State, id: Id, success: bool) returns (hs: seq<Happening>)
    requires Begun(init) && init.stored.None? && id !in init.used && id !in init.journal
    ensures var s := Run(init, hs);
      s.stored == Some(id) && s.sent == init.sent + {id} && s.dialog.Some? && s.dialog.value.attempt == Some(id) &&
      s.dialog.value.outcome == Some(if success then Confirmed else Failed) &&
        Run(init, hs + [NewCandidate]).stored.None?
  {
    var first := Quotes(init, id);
    var s1 := Run(init, first);
    var second := SubmitSends(s1, s1.dialog.value, id, id);
    var s2 := Run(s1, second);
    var third := ShowsReceipt(s2, id, |s1.flights|, success);
    RunSplit(init, first, second);
    RunSplit(init, first + second, third);
    hs := first + second + third;
    RunSplit(init, hs, [NewCandidate]);
    RunCons(Run(init, hs), NewCandidate, []);
    assert [NewCandidate] + [] == [NewCandidate];
  }
}
