/**
 * The identity creation view: one action at a time, each finishing one await later, with the
 * recovery code shown only until it is acknowledged.
 */
module IdentitySetup {
  import opened Common
  import opened Outcomes

  /** The running action. `Generating` and `Opening` are the two halves of a start, `Reading` re-reads the original. */
  datatype Job = Generating | Opening | Reading | Preparing | Submitting | Renewing | Revealing
  /** `attempts` counts attempts begun after a failure. */
  datatype Setup = Setup(
    session: bool, codeShown: bool, saved: bool, found: bool, organization: bool, funded: bool,
    quote: bool, outcome: Option<Status>, job: Option<Job>, attempts: nat)

  datatype Event =
    | ClickStart
    | ClickReveal
    | Acknowledge
    | ClickRefresh
    | ClickPrepare
    | ClickSubmit(expired: bool)
    | ClickCancel
    | ClickNewAttempt
    | EditName
    | Throws
    | GotCode(shown: bool)
    | Opened(shown: bool)
    | WasRead(found: bool, organization: bool, funded: bool, prior: Option<Status>)
    | GotQuote
    | GotOutcome(status: Status)
    | Renewed
    | Revealed

  const BLANK := Setup(false, false, false, false, false, false, false, None, None, 0)

  /** The step number decides which controls exist. */
  function StepNumber(s: Setup): nat {
    if !s.session then 0 else if !s.saved then 1 else if s.organization then 5 else if s.found then 4
    else if s.funded || s.outcome.Some? then 3 else 2
  }

  function Begin(s: Setup, job: Job): Setup { s.(job := Some(job)) }

  function Click(s: Setup, e: Event): Setup {
    match e
    case ClickStart => if s.session then s else Begin(s, Generating)
    case ClickReveal => if StepNumber(s) == 1 && !s.codeShown && !s.found then Begin(s, Revealing) else s
    case Acknowledge => if StepNumber(s) == 1 then s.(saved := true, codeShown := false, quote := false) else s
    case ClickRefresh => if s.session then Begin(s, Reading) else s
    case ClickPrepare =>
      if (StepNumber(s) == 3 || StepNumber(s) == 4) && !s.quote && s.outcome.None? && s.saved
      then Begin(s.(quote := false, outcome := None), Preparing) else s
    case ClickSubmit(expired) => if s.session && s.quote && s.saved &&
      !expired then Begin(s.(quote := false), Submitting) else s
    case ClickCancel => s.(quote := false)
    case ClickNewAttempt => if s.session && s.outcome == Some(Failed) then Begin(s, Renewing) else s
    case EditName => if s.quote then s else s.(quote := false)
    case _ => s
  }

  function Finish(s: Setup, job: Job, e: Event): Setup {
    if e.Throws? then s.(job := None) else
    match job
    case Generating => if e.GotCode? then Begin(s.(codeShown := e.shown), Opening) else s
    case Opening =>
      if e.Opened? then Begin(s.(session := true, codeShown := e.shown, saved := false, quote := false,
        outcome := None), Reading) else s
    case Reading =>
      if e.WasRead? then s.(found := e.found, organization := e.organization, funded := e.funded, outcome := e.prior,
        quote := false, job := None) else s
    case Preparing =>
      if e.GotQuote? then s.(quote := true, job := None) else if e.GotOutcome?
        then s.(outcome := Some(e.status), job := None) else s
    case Submitting =>
      // A confirmed submission is followed by a read in the same action.
      if e.GotOutcome? then s.(outcome := Some(e.status), job := if e.status.Confirmed? then Some(Reading) else None)
        else s
    case Renewing => if e.Renewed? then s.(outcome := None, quote := false, attempts := s.attempts + 1, job := None)
      else s
    case Revealing => if e.Revealed? then s.(codeShown := true, job := None) else s
  }

  function Step(s: Setup, e: Event): Setup {
    if s.job.Some? then Finish(s, s.job.value, e) else Click(s, e)
  }

  function Execute(s: Setup, events: seq<Event>): Setup
    decreases |events|
  {
    if events == [] then s else Execute(Step(s, events[0]), events[1..])
  }

  ghost predicate Inv(s: Setup) {
    (s.outcome.Some? || s.job == Some(Reading) ==> s.session) &&
    (s.saved ==> s.session && !s.codeShown) &&
    (s.quote ==> s.saved && s.outcome.None?) &&
    (s.job == Some(Preparing) || s.job == Some(Submitting) ==> s.saved && !s.quote && s.outcome.None?) &&
    (s.job == Some(Renewing) ==> s.outcome == Some(Failed)) &&
    (s.job == Some(Revealing) ==> s.session && !s.saved) &&
    (s.job == Some(Generating) || s.job == Some(Opening) ==> !s.session)
  }

  lemma ClickKeeps(s: Setup, e: Event)
    requires Inv(s) && s.job.None?
    ensures Inv(Click(s, e)) && Click(s, e).outcome == s.outcome && Click(s, e).attempts == s.attempts
  {
  }

  lemma FinishKeeps(s: Setup, job: Job, e: Event)
    requires Inv(s) && s.job == Some(job)
    ensures var s' := Finish(s, job, e);
      Inv(s') &&
      (s'.outcome != s.outcome ==>
        s.outcome.None? || (job.Reading? && e.WasRead?) || (job.Renewing? && s.outcome == Some(Failed))) &&
      (s'.attempts != s.attempts ==> s.outcome == Some(Failed) && s'.attempts == s.attempts + 1)
  {
  }

  lemma StepKeeps(s: Setup, e: Event)
    requires Inv(s)
    ensures Inv(Step(s, e))
  {
    if s.job.Some? { FinishKeeps(s, s.job.value, e); } else { ClickKeeps(s, e); }
  }

  lemma {:induction false} ExecuteKeeps(s: Setup, events: seq<Event>)
    requires Inv(s)
    ensures Inv(Execute(s, events))
    decreases |events|
  {
    if events != [] {
      StepKeeps(s, events[0]);
      ExecuteKeeps(Step(s, events[0]), events[1..]);
    }
  }

  /** In every run a quote exists only after the code was acknowledged and is no longer shown, and never beside an
      outcome. */
  lemma QuoteOnlyAfterAcknowledgement(events: seq<Event>)
    ensures var s := Execute(BLANK, events); s.quote ==> s.session && s.saved && !s.codeShown && s.outcome.None?
  {
    ExecuteKeeps(BLANK, events);
  }

  /** Whatever happens next in any run: an unknown outcome changes only by re-reading the original, and a new attempt
      begins only from a failed one. */
  lemma UnknownOnlyReread(events: seq<Event>, e: Event)
    ensures var s := Execute(BLANK, events);
      (s.outcome == Some(Unknown) && Step(s, e).outcome != s.outcome ==> s.job == Some(Reading) && e.WasRead?) &&
      (Step(s, e).attempts != s.attempts ==> s.outcome == Some(Failed) && Step(s, e).attempts == s.attempts + 1)
  {
    ExecuteKeeps(BLANK, events);
    StepOutcome(Execute(BLANK, events), e);
  }

  lemma StepOutcome(s: Setup, e: Event)
    requires Inv(s)
    ensures s.outcome == Some(Unknown) && Step(s, e).outcome != s.outcome ==> s.job == Some(Reading) && e.WasRead?
    ensures s.outcome == Some(Unknown) && Step(s, e).outcome == s.outcome ==> !Step(s, e).quote
    ensures Step(s, e).attempts != s.attempts ==> s.outcome == Some(Failed) && Step(s, e).attempts == s.attempts + 1
  {
    if s.job.Some? { FinishKeeps(s, s.job.value, e); } else { ClickKeeps(s, e); }
  }

  /** While an outcome is unknown nothing can be quoted or submitted. */
  lemma {:induction false} UnknownBlocks(s: Setup, events: seq<Event>)
    requires Inv(s) && s.outcome == Some(Unknown) && forall i :: 0 <= i < |events| ==> !events[i].WasRead?
    ensures Execute(s, events).outcome == Some(Unknown) && !Execute(s, events).quote
    ensures Execute(s, events).job != Some(Preparing) && Execute(s, events).job != Some(Submitting) &&
      Execute(s, events).attempts == s.attempts
    decreases |events|
  {
    if events != [] {
      StepKeeps(s, events[0]);
      StepOutcome(s, events[0]);
      UnknownBlocks(Step(s, events[0]), events[1..]);
    }
  }

  // ------------------------------------------------------------ what the view says, told by its history

  ghost function At(events: seq<Event>, k: nat): Setup
    requires k <= |events|
  {
    Execute(BLANK, events[..k])
  }

  lemma {:induction false} ExecuteSnoc(s: Setup, events: seq<Event>, e: Event)
    ensures Execute(s, events + [e]) == Step(Execute(s, events), e)
    decreases |events|
  {
    if events == [] {
      assert ([] + [e])[1..] == [];
      assert Execute(Step(s, e), []) == Step(s, e);
    } else {
      assert (events + [e])[1..] == events[1..] + [e];
      ExecuteSnoc(Step(s, events[0]), events[1..], e);
    }
  }

  /** What an event that ends the running action says about the outcome: what the chain reported, what a read of the
      original found, or nothing any more after a new start or a new attempt. */
  function Answer(s: Setup, e: Event): Option<Option<Status>> {
    if (s.job == Some(Preparing) || s.job == Some(Submitting)) && e.GotOutcome? then Some(Some(e.status))
    else if s.job == Some(Reading) && e.WasRead? then Some(e.prior)
    else if (s.job == Some(Opening) && e.Opened?) || (s.job == Some(Renewing) && e.Renewed?) then Some(None)
    else None
  }

  ghost function AnswerAt(events: seq<Event>, k: nat): Option<Option<Status>> {
    if k < |events| then Answer(At(events, k), events[k]) else None
  }

  ghost predicate LatestAnswer(events: seq<Event>, k: nat, outcome: Option<Status>) {
    AnswerAt(events, k) == Some(outcome) && forall j :: k < j < |events| ==> AnswerAt(events, j).None?
  }

  ghost predicate Unanswered(events: seq<Event>) { forall j: nat :: AnswerAt(events, j).None? }

  /** An event leaves the outcome alone unless it answers. */
  lemma StepAnswers(s: Setup, e: Event)
    ensures Step(s, e).outcome == if Answer(s, e).Some? then Answer(s, e).value else s.outcome
  {
  }

  lemma Last(events: seq<Event>)
    requires events != []
    ensures At(events, |events|) == Step(At(events, |events| - 1), events[|events| - 1])
  {
    var n := |events| - 1;
    assert events[..n] + [events[n]] == events[..n + 1];
    ExecuteSnoc(BLANK, events[..n], events[n]);
  }

  /** In every run the outcome on display is the latest answer there was, and none before the first. */
  lemma {:induction false} OutcomeIsLatestAnswer(events: seq<Event>) returns (k: Option<nat>)
    ensures var outcome := Execute(BLANK, events).outcome;
      if k.Some? then LatestAnswer(events, k.value, outcome) else Unanswered(events) && outcome.None?
    decreases |events|
  {
    assert events[..|events|] == events;
    if events == [] {
      k := None;
    } else {
      var n := |events| - 1;
      Last(events);
      StepAnswers(At(events, n), events[n]);
      k := OutcomeIsLatestAnswer(events[..n]);
      forall j | 0 <= j < n ensures AnswerAt(events, j) == AnswerAt(events[..n], j) {
        assert events[..n][..j] == events[..j];
      }
      if AnswerAt(events, n).Some? {
        k := Some(n);
      }
    }
  }

  /** Whoever saved the code, has something to create and no outcome yet can be quoted, submit, and is then told
      exactly what the chain reports; a cancelled quote is gone. */
  lemma SubmissionReports(s: Setup, status: Status)
    requires s.session && s.saved && !s.organization && (s.found || s.funded) && s.outcome.None? && !s.quote &&
      s.job.None?
    ensures var quoted := Step(Step(s, ClickPrepare), GotQuote);
      var told := Step(Step(quoted, ClickSubmit(false)), GotOutcome(status));
      quoted == s.(quote := true) && Step(quoted, ClickCancel) == s &&
      told == s.(outcome := Some(status), job := if status.Confirmed? then Some(Reading) else None)
  {
  }

  /** Until it is acknowledged the code of a new identity can be shown again, and acknowledging hides it for good. */
  lemma CodeCanBeRevealed(s: Setup)
    requires s.session && !s.saved && !s.found && !s.codeShown && s.job.None?
    ensures Step(Step(s, ClickReveal), Revealed) == s.(codeShown := true)
    ensures Step(Step(Step(s, ClickReveal), Revealed), Acknowledge) == s.(saved := true, quote := false)
  {
  }

  /** A refresh replaces everything the view knows of the chain by what was read, and drops the quote. */
  lemma RefreshReads(s: Setup, found: bool, organization: bool, funded: bool, prior: Option<Status>)
    requires s.session && s.job.None?
    ensures Step(Step(s, ClickRefresh), WasRead(found, organization, funded, prior)) ==
      s.(found := found, organization := organization, funded := funded, outcome := prior, quote := false)
  {
  }

  /** And a newcomer gets there by saving the code. */
  lemma NewcomerArrives(code: bool, organization: bool, funded: bool, found: bool)
    ensures var opening := Step(Step(BLANK, ClickStart), GotCode(code));
      var read := Step(Step(opening, Opened(code)), WasRead(found, organization, funded, None));
      read == Setup(true, code, false, found, organization, funded, false, None, None, 0) &&
      Step(read, Acknowledge) == Setup(true, false, true, found, organization, funded, false, None, None, 0)
  {
  }
}
