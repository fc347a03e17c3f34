/**
 * What the import dialog tells its user: a terminal outcome on display is the receipt the chain gave that very
 * attempt, a query answers exactly what journal and chain hold, and an undisturbed import runs to its receipt.
 */
module ImportReceipts {
  import opened Common
  import opened Outcomes
  import opened ImportSession

  /** Event `k` is the one that gives `id` its receipt. */
  ghost predicate Settles(w: World, events: seq<Event>, k: nat, id: Id, success: bool) {
    k < |events| && events[k] == Resolve(id, success) &&
    id in Execute(w, events[..k]).sent && id !in Execute(w, events[..k]).results
  }

  lemma SettlesLater(w: World, events: seq<Event>, k: nat, id: Id, success: bool)
    requires events != []
    ensures Settles(w, events, k + 1, id, success) <==> Settles(Step(w, events[0]), events[1..], k, id, success)
  {
    if k + 1 < |events| {
      ExecuteCons(w, events[0], events[1..][..k]);
      assert events[..k + 1] == [events[0]] + events[1..][..k];
    }
  }

  /** Awaits and clicks leave receipts alone. */
  lemma OnlyResolve(w: World, e: Event)
    requires !e.Resolve?
    ensures Step(w, e).results == w.results
  {
  }

  /** A receipt is never replaced, and a new one says what the event that brought it said. */
  lemma {:induction false} ReceiptGiven(w: World, events: seq<Event>, id: Id)
    ensures var after := Execute(w, events).results;
      (id in w.results ==> id in after && after[id] == w.results[id]) &&
      (id !in w.results && id in after ==>
        exists k: nat, success :: Settles(w, events, k, id, success) && after[id] == if success then Confirmed
          else Failed)
    decreases |events|
  {
    if events != [] {
      var e, rest, after := events[0], events[1..], Execute(w, events).results;
      ReceiptGiven(Step(w, e), rest, id);
      if !e.Resolve? { OnlyResolve(w, e); }
      if id !in w.results && id in after {
        if id in Step(w, e).results {
          assert events[..0] == [];
          assert Settles(w, events, 0, id, e.success);
        } else {
          var k: nat, success :| Settles(Step(w, e), rest, k, id, success) &&
            after[id] == if success then Confirmed else Failed;
          SettlesLater(w, events, k, id, success);
          assert Settles(w, events, k + 1, id, success);
        }
      }
    }
  }

  /** Every event that settles an id decides its receipt for good. */
  lemma {:induction false} SettledAs(w: World, events: seq<Event>, k: nat, id: Id, success: bool)
    requires Settles(w, events, k, id, success)
    ensures id !in w.results && id in Execute(w, events).results &&
      Execute(w, events).results[id] == if success then Confirmed else Failed
    decreases |events|
  {
    if k == 0 {
      assert events[..0] == [];
      ReceiptGiven(Step(w, events[0]), events[1..], id);
    } else {
      SettlesLater(w, events, k - 1, id, success);
      SettledAs(Step(w, events[0]), events[1..], k - 1, id, success);
      if !events[0].Resolve? { OnlyResolve(w, events[0]); }
    }
  }

  /** In every run, an id without an earlier receipt is confirmed exactly when the chain settled it with success, and
      failed exactly when the chain settled it without. */
  lemma ReceiptExactly(w: World, events: seq<Event>, id: Id, success: bool)
    requires id !in w.results
    ensures var after := Execute(w, events).results;
      (id in after && after[id] == if success then Confirmed else Failed) <==>
        exists k: nat :: Settles(w, events, k, id, success)
  {
    ReceiptGiven(w, events, id);
    if k: nat :| Settles(w, events, k, id, success) {
      SettledAs(w, events, k, id, success);
    }
  }

  /** In every interleaving, an outcome is shown only for an attempt claimed in the journal, and one that is not
      unknown is the receipt of the attempt on display: the one it started with, or the one the chain settled it with
      during the run. */
  lemma ShownOutcomeIsTheReceipt(w: World, events: seq<Event>)
    requires Start(w)
    ensures var w' := Execute(w, events);
      w'.view.Some? && w'.view.value.outcome.Some? ==>
        w'.view.value.attempt.Some? && w'.view.value.attempt.value in w'.journal
    ensures var w' := Execute(w, events);
      w'.view.Some? && w'.view.value.outcome.Some? && w'.view.value.outcome != Some(Unknown) ==> (
        var v := w'.view.value;
        v.attempt.Some? && var id := v.attempt.value;
        w'.stored == Attempt(id) && id in w'.results && v.outcome == Some(w'.results[id]) &&
        (if id in w.results then v.outcome == Some(w.results[id])
         else exists k: nat, success :: (
           Settles(w, events, k, id, success) && v.outcome == Some(if success then Confirmed else Failed))))
  {
    ExecuteKeeps(w, events);
    var w' := Execute(w, events);
    if w'.view.Some? && w'.view.value.attempt.Some? {
      ReceiptGiven(w, events, w'.view.value.attempt.value);
    }
  }

  /** A query of the recorded attempt shows its receipt if the chain shows one, says the attempt was never submitted
      exactly when no claim of it is in the journal, and otherwise says that nothing is known. */
  lemma QueryExactly(w: World, v: View, id: Id, visible: bool)
    requires w.view == Some(v) && v.job.None? && v.attempt == Some(id)
    ensures var w' := Step(Step(Step(w, ClickQuery), Progress(Choice(true, false, visible))), Deliver(false));
      w' == w.(view := Some(
        if id !in w.journal then v.(unsubmitted := true)
        else if visible && id in w.results then v.(quote := None, outcome := Some(w.results[id]), unsubmitted := false)
        else v.(quote := None, outcome := Some(Unknown), unsubmitted := false)))
  {
    var job := Job(0, id, 0, Querying);
    assert Step(w, ClickQuery) == SetView(w, v.(job := Some(job)));
    var w2 := Step(SetView(w, v.(job := Some(job))), Progress(Choice(true, false, visible)));
    assert w2.view.value.job.value.phase.Ready?;
  }

  /** An Agent that turns out to be registered already, while quoting or before signing, is reported so, without a quote
      to submit and without anything claimed or broadcast, and cannot be quoted again. */
  lemma AlreadyRegistered(w: World, v: View, job: Job)
    requires w.view == Some(v) && v.job == Some(job) && job.id !in w.journal
    requires job.phase.Planning? || (job.phase.Starting? && job.session < |w.sessions| &&
      job.quote in w.sessions[job.session].plans)
    ensures var w' := Step(Step(w, Progress(Choice(true, true, true))), Deliver(false));
      w' == w.(view := Some(v.(job := None, quote := None, registered := true, unsubmitted := true))) &&
      Step(w', ClickQuote) == w' && Step(w', ClickSubmit) == w'
  {
  }

  // ------------------------------------------------------------ an undisturbed import

  /** The view asks for a first quote and has a new attempt stored. */
  lemma Loads(w: World, id: Id)
    requires Start(w) && w.stored.Absent? && id !in w.used
    ensures Step(Step(Step(w, Mount), ClickQuote), Load(id, Choice(true, false, true))) == w.(
      stored := Attempt(id), used := w.used + {id}, sessions := [Session(false, {})],
      view := Some(EMPTY_VIEW.(attempt := Some(id), session := Some(0), job := Some(Job(0, id, 0, Preparing)))))
  {
    assert Step(Step(w, Mount), ClickQuote) == SetView(w, EMPTY_VIEW.(job := Some(Job(0, 0, 0, Loading))));
  }

  /** A job that found nothing in the journal is quoted, and the quote is shown. */
  lemma ShowsQuote(w: World, v: View, id: Id)
    requires w.view == Some(v) && v.job == Some(Job(0, id, 0, Preparing)) && id !in w.journal
    requires w.sessions == [Session(false, {})]
    ensures var yes := Progress(Choice(true, false, true));
      Step(Step(Step(w, yes), yes), Deliver(false)) == w.(
        nextQuote := w.nextQuote + 1, sessions := [Session(false, {w.nextQuote})],
        view := Some(v.(job := None, quote := Some(w.nextQuote), unsubmitted := true)))
  {
    var yes := Progress(Choice(true, false, true));
    assert Step(w, yes) == SetView(w, v.(job := Some(Job(0, id, 0, Planning))));
    assert {} + {w.nextQuote} == {w.nextQuote};
  }

  /** Mount, ask for a quote, and have a new attempt stored and quoted. */
  lemma Quotes(w: World, id: Id) returns (events: seq<Event>)
    requires Start(w) && w.stored.Absent? && id !in w.used
    ensures Execute(w, events) == w.(
      stored := Attempt(id), used := w.used + {id}, nextQuote := w.nextQuote + 1,
      sessions := [Session(false, {w.nextQuote})],
      view := Some(EMPTY_VIEW.(attempt := Some(id), session := Some(0), quote := Some(w.nextQuote),
        unsubmitted := true)))
  {
    var yes := Choice(true, false, true);
    events := [Mount, ClickQuote, Load(id, yes), Progress(yes), Progress(yes), Deliver(false)];
    Six(w, events);
    Loads(w, id);
    var w3 := Step(Step(Step(w, Mount), ClickQuote), Load(id, yes));
    ShowsQuote(w3, w3.view.value, id);
  }

  /** Six events are six steps. */
  lemma Six(w: World, e: seq<Event>)
    requires |e| == 6
    ensures Execute(w, e) == Step(Step(Step(Step(Step(Step(w, e[0]), e[1]), e[2]), e[3]), e[4]), e[5])
  {
    assert e == [e[0]] + ([e[1]] + ([e[2]] + ([e[3]] + ([e[4]] + ([e[5]] + [])))));
    var w1 := Step(w, e[0]);
    var w2 := Step(w1, e[1]);
    var w3 := Step(w2, e[2]);
    var w4 := Step(w3, e[3]);
    ExecuteCons(w, e[0], [e[1]] + ([e[2]] + ([e[3]] + ([e[4]] + ([e[5]] + [])))));
    ExecuteCons(w1, e[1], [e[2]] + ([e[3]] + ([e[4]] + ([e[5]] + []))));
    ExecuteCons(w2, e[2], [e[3]] + ([e[4]] + ([e[5]] + [])));
    ExecuteCons(w3, e[3], [e[4]] + ([e[5]] + []));
    ExecuteCons(w4, e[4], [e[5]] + []);
    ExecuteCons(Step(w4, e[4]), e[5], []);
  }

  /** The quote on display is one its controller would still sign for an attempt nobody claimed. */
  ghost predicate Quoted(w: World, v: View, id: Id, q: nat) {
    w.view == Some(v) && v.job.None? && v.attempt == Some(id) && v.quote == Some(q) && v.session == Some(0) &&
    |w.sessions| == 1 && !w.sessions[0].disposed && q in w.sessions[0].plans &&
    id !in w.journal && id !in w.sent && id !in w.results
  }

  /** Confirm the quote: read the journal and sign. */
  lemma Signs(w: World, v: View, id: Id, q: nat)
    requires Quoted(w, v, id, q)
    ensures var yes := Progress(Choice(true, false, true));
      Step(Step(Step(w, ClickSubmit), yes), yes) ==
        SetView(w, v.(unsubmitted := false, job := Some(Job(0, id, q, Claiming))))
  {
    var v1 := v.(unsubmitted := false, job := Some(Job(0, id, q, Starting)));
    assert Step(w, ClickSubmit) == SetView(w, v1);
  }

  /** Claim, broadcast, and have a receipt. */
  lemma Broadcasts(w: World, v: View, id: Id, q: nat, success: bool)
    requires w.view == Some(v) && v.job == Some(Job(0, id, q, Claiming)) && |w.sessions| == 1 && !w.sessions[0].disposed
    requires id !in w.journal && id !in w.sent && id !in w.results
    ensures var yes := Progress(Choice(true, false, true));
      Step(Step(Step(w, yes), yes), Resolve(id, success)) == w.(
        journal := w.journal + {id}, called := w.called + [id], sent := w.sent + {id},
        results := w.results[id := if success then Confirmed else Failed],
        view := Some(v.(job := Some(Job(0, id, q, Sent)))))
  {
  }

  /** Confirm the quote: read the journal, sign, claim, broadcast, and have a receipt. */
  lemma Submits(w: World, v: View, id: Id, q: nat, success: bool) returns (events: seq<Event>)
    requires Quoted(w, v, id, q)
    ensures Execute(w, events) == w.(
      journal := w.journal + {id}, called := w.called + [id], sent := w.sent + {id},
      results := w.results[id := if success then Confirmed else Failed],
      view := Some(v.(unsubmitted := false, job := Some(Job(0, id, q, Sent)))))
  {
    var yes := Progress(Choice(true, false, true));
    events := [ClickSubmit, yes, yes, yes, yes, Resolve(id, success)];
    Six(w, events);
    Signs(w, v, id, q);
    var w3 := Step(Step(Step(w, ClickSubmit), yes), yes);
    Broadcasts(w3, w3.view.value, id, q, success);
  }

  lemma {:induction false} ExecuteSplit(w: World, first: seq<Event>, more: seq<Event>)
    ensures Execute(w, first + more) == Execute(Execute(w, first), more)
    decreases |first|
  {
    if first == [] {
      assert first + more == more;
    } else {
      assert (first + more)[1..] == first[1..] + more;
      ExecuteSplit(Step(w, first[0]), first[1..], more);
    }
  }

  /** From every start with nothing stored, a new attempt can be quoted, signed and broadcast once; the view then shows
      whatever the chain says, and the attempt stays stored until it is reset. */
  lemma ImportCompletes(w: World, id: Id, success: bool) returns (events: seq<Event>)
    requires Start(w) && w.stored.Absent? && id !in w.used
    ensures var w' := Execute(w, events);
      w'.stored == Attempt(id) && w'.called == w.called + [id] && w'.journal == w.journal + {id} &&
      w'.view == Some(EMPTY_VIEW.(attempt := Some(id), session := Some(0),
        outcome := Some(if success then Confirmed else Failed)))
  {
    var first := Quotes(w, id);
    var w1 := Execute(w, first);
    var second := Submits(w1, w1.view.value, id, w.nextQuote, success);
    var w2 := Execute(w1, second);
    var answer, show := Progress(Choice(true, false, true)), Deliver(false);
    var w3 := Step(w2, answer);
    ExecuteCons(w3, show, []);
    ExecuteCons(w2, answer, [show] + []);
    var third := [answer] + ([show] + []);
    ExecuteSplit(w, first, second);
    ExecuteSplit(w, first + second, third);
    events := first + second + third;
  }
}
