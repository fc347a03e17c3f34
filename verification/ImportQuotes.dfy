/**
 * What dropping an import quote means: a quote that was cancelled, or that arrived after the authority had changed, is
 * never shown again and never signed for, whatever happens later and however its view is closed and reopened.
 */
module ImportQuotes {
  import opened Common
  import opened Outcomes
  import opened ImportSession

  // ------------------------------------------------------------ whose quote it is

  /** A quote has one controller, the one its view or its action works with. */
  ghost predicate Belongs(w: World, q: nat, session: Option<nat>) {
    q < w.nextQuote && forall s :: 0 <= s < |w.sessions| && q in w.sessions[s].plans ==> session == Some(s)
  }

  ghost predicate PlansOwned(w: World) {
    forall s, q :: 0 <= s < |w.sessions| && q in w.sessions[s].plans ==> Belongs(w, q, Some(s))
  }

  ghost predicate Owned(w: World) {
    PlansOwned(w) &&
    (w.view.Some? && w.view.value.quote.Some? ==> Belongs(w, w.view.value.quote.value, w.view.value.session)) &&
    (w.view.Some? && w.view.value.job.Some? ==> JobOwned(w, w.view.value.job.value))
  }

  ghost predicate JobOwned(w: World, job: Job) {
    job.phase.Ready? && job.phase.reply.Quoted? ==> Belongs(w, job.phase.reply.quote, Some(job.session))
  }

  /** Controllers are only added, and a plan is only dropped, or new under a number nobody used. */
  ghost predicate Numbering(w: World, w': World) {
    w.nextQuote <= w'.nextQuote && |w.sessions| <= |w'.sessions| &&
    (forall s {:trigger w'.sessions[s]} :: 0 <= s < |w'.sessions| ==>
      forall q :: q in w'.sessions[s].plans && q < w.nextQuote ==> s < |w.sessions| && q in w.sessions[s].plans)
  }

  lemma AdvanceOwned(w: World, job: Job, c: Choice)
    requires PlansOwned(w)
    ensures var (w', job') := Advance(w, job, c);
      PlansOwned(w') && Numbering(w, w') && w'.view == w.view && (JobOwned(w, job) ==> JobOwned(w', job'))
  {
  }

  lemma ProgressOwned(w: World, e: Event)
    requires Owned(w) && (e.Progress? || e.StrayProgress?)
    ensures Owned(Step(w, e))
  {
    if e.StrayProgress? {
      if e.index < |w.strays| {
        AdvanceOwned(w, w.strays[e.index], e.choice);
      }
    } else if w.view.Some? && w.view.value.job.Some? {
      AdvanceOwned(w, w.view.value.job.value, e.choice);
    }
  }

  ghost predicate OnlyDrops(w: World, w': World) {
    w'.nextQuote == w.nextQuote && |w.sessions| <= |w'.sessions| &&
    forall s, q :: 0 <= s < |w'.sessions| && q in w'.sessions[s].plans ==> s < |w.sessions| && q in w.sessions[s].plans
  }

  /** Apart from awaits, steps make no plan. */
  lemma OthersNumber(w: World, e: Event)
    requires !e.Progress? && !e.StrayProgress?
    ensures OnlyDrops(w, Step(w, e))
  {
  }

  /** What a view holds after such a step: the quote it had, with the same controller, or the one its action brought;
      and its action, or a new one without a reply and without a signature. */
  ghost predicate Follows(w: World, v': View) {
    (v'.quote.Some? ==> (
      w.view.Some? && v'.session == w.view.value.session &&
      (w.view.value.quote == v'.quote ||
        (v'.job.None? && w.view.value.job.Some? && w.view.value.job.value.phase == Ready(Quoted(v'.quote.value)) &&
          v'.session == Some(w.view.value.job.value.session))))) &&
    (v'.job.Some? ==> (
      (w.view.Some? && v'.job == w.view.value.job) ||
      (!v'.job.value.phase.Ready? && !Signed(v'.job.value, v'.job.value.quote))))
  }

  lemma DeliverFollows(w: World, v: View, changed: bool)
    requires Inv(w) && w.view == Some(v) && v.job.Some?
    ensures DoDeliver(w, v, changed).view.Some? && Follows(w, DoDeliver(w, v, changed).view.value)
  {
    assert LiveJob(w, v, v.job.value);
  }

  lemma LoadFollows(w: World, v: View, id: Id, c: Choice)
    requires Inv(w) && w.view == Some(v) && v.job.Some? && v.job.value.phase.Loading?
    ensures DoLoad(w, v, id, c).view.Some? && Follows(w, DoLoad(w, v, id, c).view.value)
  {
    assert LiveJob(w, v, v.job.value);
  }

  lemma OthersFollow(w: World, e: Event)
    requires Inv(w) && !e.Progress? && !e.StrayProgress? && Step(w, e).view.Some?
    ensures Follows(w, Step(w, e).view.value)
  {
    if e.Deliver? && w.view.Some? && w.view.value.job.Some? {
      DeliverFollows(w, w.view.value, e.revisionChanged);
    } else if e.Load? && w.view.Some? && w.view.value.job.Some? && w.view.value.job.value.phase.Loading? {
      LoadFollows(w, w.view.value, e.id, e.choice);
    }
  }

  lemma FollowsOwned(w: World, w': World)
    requires Owned(w) && OnlyDrops(w, w')
    requires w'.view.Some? ==> Follows(w, w'.view.value)
    ensures Owned(w')
  {
  }

  lemma StepOwned(w: World, e: Event)
    requires Inv(w) && Owned(w)
    ensures Owned(Step(w, e))
  {
    if e.Progress? || e.StrayProgress? {
      ProgressOwned(w, e);
    } else {
      OthersNumber(w, e);
      if Step(w, e).view.Some? {
        OthersFollow(w, e);
      }
      FollowsOwned(w, Step(w, e));
    }
  }

  lemma {:induction false} ExecuteOwned(w: World, events: seq<Event>)
    requires Inv(w) && Owned(w)
    ensures Inv(Execute(w, events)) && Owned(Execute(w, events))
    decreases |events|
  {
    if events != [] {
      StepOwned(w, events[0]);
      StepKeeps(w, events[0]);
      ExecuteOwned(Step(w, events[0]), events[1..]);
    }
  }

  // ------------------------------------------------------------ a dropped quote

  /** The action has the signature it asked for under this quote, or is past it. */
  predicate Signed(job: Job, q: nat) {
    job.quote == q && (job.phase.Claiming? || job.phase.Claimed? || job.phase.Sent?)
  }

  /** No controller would sign for the quote, no action has its signature, and no view shows it or is about to. */
  ghost predicate Dropped(w: World, q: nat) {
    q < w.nextQuote && (forall s :: 0 <= s < |w.sessions| ==> q !in w.sessions[s].plans) &&
    (forall i :: 0 <= i < |w.strays| ==> !Signed(w.strays[i], q)) &&
    (w.view.Some? ==> w.view.value.quote != Some(q)) &&
    (w.view.Some? && w.view.value.job.Some? ==>
      !Signed(w.view.value.job.value, q) && w.view.value.job.value.phase != Ready(Quoted(q)))
  }

  lemma AdvanceDropped(w: World, job: Job, c: Choice, q: nat)
    requires q < w.nextQuote && (forall s :: 0 <= s < |w.sessions| ==> q !in w.sessions[s].plans)
    ensures var (w', job') := Advance(w, job, c);
      q < w'.nextQuote && (forall s :: 0 <= s < |w'.sessions| ==> q !in w'.sessions[s].plans) &&
      w'.view == w.view && w'.strays == w.strays && (!Signed(job, q) ==> !Signed(job', q)) &&
      (job.phase != Ready(Quoted(q)) ==> job'.phase != Ready(Quoted(q)))
  {
  }

  lemma ProgressDropped(w: World, e: Event, q: nat)
    requires Dropped(w, q) && (e.Progress? || e.StrayProgress?)
    ensures Dropped(Step(w, e), q)
  {
    if e.StrayProgress? {
      if e.index < |w.strays| {
        AdvanceDropped(w, w.strays[e.index], e.choice, q);
      }
    } else if w.view.Some? && w.view.value.job.Some? {
      AdvanceDropped(w, w.view.value.job.value, e.choice, q);
    }
  }

  /** Such a step adds to the outlived actions only the one of an unmounted view. */
  lemma OthersStray(w: World, e: Event)
    requires !e.Progress? && !e.StrayProgress?
    ensures var strays := Step(w, e).strays;
      strays == w.strays || (w.view.Some? && w.view.value.job.Some? && strays == w.strays + [w.view.value.job.value])
  {
  }

  lemma StepDropped(w: World, e: Event, q: nat)
    requires Inv(w) && Dropped(w, q)
    ensures Dropped(Step(w, e), q)
  {
    if e.Progress? || e.StrayProgress? {
      ProgressDropped(w, e, q);
    } else {
      OthersNumber(w, e);
      OthersStray(w, e);
      if Step(w, e).view.Some? {
        OthersFollow(w, e);
      }
    }
  }

  lemma {:induction false} DroppedForever(w: World, events: seq<Event>, q: nat)
    requires Inv(w) && Dropped(w, q)
    ensures Dropped(Execute(w, events), q)
    decreases |events|
  {
    if events != [] {
      StepDropped(w, events[0], q);
      StepKeeps(w, events[0]);
      DroppedForever(Step(w, events[0]), events[1..], q);
    }
  }

  /** A quote on display that is cancelled, or whose authority changes before it was signed for, is dropped; so is one
      that arrives after its authority changed. */
  ghost predicate Drops(w: World, e: Event, q: nat) {
    w.view.Some? && var v := w.view.value;
    (v.quote == Some(q) && e.ClickCancel? && v.job.None?) ||
    (v.quote == Some(q) && e.AuthorityChange? && (v.job.Some? ==> !Signed(v.job.value, q))) ||
    (e == Deliver(true) && v.job.Some? && v.job.value.phase == Ready(Quoted(q)))
  }

  lemma DropsIt(w: World, e: Event, q: nat)
    requires Inv(w) && Owned(w) && Drops(w, e, q) && forall i :: 0 <= i < |w.strays| ==> !Signed(w.strays[i], q)
    ensures Dropped(Step(w, e), q)
  {
    if w.view.value.job.Some? {
      assert LiveJob(w, w.view.value, w.view.value.job.value);
    }
  }

  /** In every run, once a quote is dropped no view shows it again and no action ever gets a signature for it, unless an
      action that outlived its view had it already. */
  lemma DroppedNeverSigned(start: World, before: seq<Event>, e: Event, after: seq<Event>, q: nat)
    requires Start(start)
    requires var w := Execute(start, before);
      Drops(w, e, q) && forall i :: 0 <= i < |w.strays| ==> !Signed(w.strays[i], q)
    ensures Dropped(Execute(Step(Execute(start, before), e), after), q)
  {
    ExecuteOwned(start, before);
    StepKeeps(Execute(start, before), e);
    DropsIt(Execute(start, before), e, q);
    DroppedForever(Step(Execute(start, before), e), after, q);
  }
}
