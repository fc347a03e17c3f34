/**
 * What the discovery page shows, told by what happened to it: which Agents are ticked, which scan is on display, when
 * it is busy, and what a quote on display or a submitted import is for. Event `k` of a run is judged in the state the
 * `k` events before it lead to.
 */
module DiscoverHistory {
  import opened Common
  import opened DiscoverQuote

  ghost function At(events: seq<Event>, k: nat): State
    requires k <= |events|
  {
    Execute(INITIAL, events[..k])
  }

  lemma {:induction false} ExecuteSnoc(s: State, events: seq<Event>, e: Event)
    ensures Execute(s, events + [e]) == Step(Execute(s, events), e)
    decreases |events|
  {
    if events == [] {
      assert Execute(Step(s, e), []) == Step(s, e);
      assert ([] + [e])[1..] == [];
    } else {
      assert (events + [e])[1..] == events[1..] + [e];
      ExecuteSnoc(Step(s, events[0]), events[1..], e);
    }
  }

  /** The last event acts on the state the others lead to, and an event is judged the same in every longer run. */
  lemma Last(events: seq<Event>)
    requires events != []
    ensures var n := |events| - 1;
      At(events, n + 1) == Step(At(events, n), events[n]) &&
      forall k {:trigger At(events, k)} {:trigger At(events[..n], k)} :: 0 <= k <= n ==>
        At(events[..n], k) == At(events, k)
  {
    var n := |events| - 1;
    assert events[..n] + [events[n]] == events[..n + 1];
    ExecuteSnoc(INITIAL, events[..n], events[n]);
    forall k | 0 <= k <= n ensures At(events[..n], k) == At(events, k) {
      assert events[..n][..k] == events[..k];
    }
  }

  // ------------------------------------------------------------ the ticks

  /** Event `k` ticks an Agent: by hand on a listed one while nothing is under way, or by focusing on a scanned one. */
  ghost predicate Ticks(events: seq<Event>, k: nat) {
    k < |events| && match events[k]
      case Tick(n) => !At(events, k).busy && At(events, k).scan.Some? &&
        n in At(events, k).scan.value.instances && n != "" && ',' !in n
      case Focused(scan, n) => n in scan.instances && n != "" && ',' !in n
      case _ => false
  }

  function Named(e: Event): Name {
    match e
    case Tick(n) => n
    case Untick(n) => n
    case Focused(_, n) => n
    case _ => ""
  }

  /** Event `k` takes the ticks of `n` away. */
  ghost predicate Unticks(events: seq<Event>, k: nat, n: Name) {
    k < |events| && events[k] == Untick(n) && !At(events, k).busy && At(events, k).scan.Some? &&
    n in At(events, k).scan.value.instances && n != "" && ',' !in n
  }

  /** Event `k` takes all earlier ticks away. */
  ghost predicate ClearsTicks(events: seq<Event>, k: nat) {
    k < |events| && match events[k]
      case StartRefresh => !At(events, k).busy
      case ChooseHost => !At(events, k).busy
      case Focused(_, _) => Ticks(events, k)
      case ImportDone(confirmed) => confirmed
      case _ => false
  }

  /** Event `k` ticked an Agent, and nothing has taken that tick away since. */
  ghost predicate StillTicked(events: seq<Event>, k: nat) {
    Ticks(events, k) &&
    forall j :: k < j < |events| ==> !ClearsTicks(events, j) && !Unticks(events, j, Named(events[k]))
  }

  /** `names` are the Agents of exactly the ticks not taken away, in the order they were ticked, at the events `ks`. */
  ghost predicate TickedInOrder(events: seq<Event>, ks: seq<nat>, names: seq<Name>) {
    |ks| == |names| &&
    (forall i :: 0 <= i < |ks| ==> StillTicked(events, ks[i]) && Named(events[ks[i]]) == names[i]) && Ascending(ks) &&
    (forall k: nat :: StillTicked(events, k) ==> k in ks)
  }

  function NameAt(events: seq<Event>, k: nat): Name { if k < |events| then Named(events[k]) else "" }

  function NamesAt(events: seq<Event>, ks: seq<nat>): (names: seq<Name>)
    ensures |names| == |ks| && forall i :: 0 <= i < |ks| ==> names[i] == NameAt(events, ks[i])
  {
    if ks == [] then [] else [NameAt(events, ks[0])] + NamesAt(events, ks[1..])
  }

  /** The ticks of other Agents. */
  function Others(events: seq<Event>, ks: seq<nat>, n: Name): (r: seq<nat>)
    ensures forall k :: k in r <==> k in ks && NameAt(events, k) != n
  {
    if ks == [] then [] else
    var rest := Others(events, ks[1..], n);
    assert forall k :: k in ks <==> k == ks[0] || k in ks[1..];
    if NameAt(events, ks[0]) == n then rest else [ks[0]] + rest
  }

  ghost predicate Ascending(ks: seq<nat>) { forall i, j :: 0 <= i < j < |ks| ==> ks[i] < ks[j] }

  lemma {:induction false} OthersAscending(events: seq<Event>, ks: seq<nat>, n: Name)
    requires Ascending(ks)
    ensures Ascending(Others(events, ks, n))
    decreases |ks|
  {
    if ks != [] {
      OthersAscending(events, ks[1..], n);
      var rest := Others(events, ks[1..], n);
      forall i | 0 <= i < |rest| ensures ks[0] < rest[i] {
        assert rest[i] in ks[1..];
      }
    }
  }

  lemma {:induction false} OthersNamed(events: seq<Event>, ks: seq<nat>, n: Name)
    ensures NamesAt(events, Others(events, ks, n)) == Without(NamesAt(events, ks), n)
    decreases |ks|
  {
    if ks != [] {
      OthersNamed(events, ks[1..], n);
      NamesCons(events, ks[0], ks[1..]);
      NamesCons(events, ks[0], Others(events, ks[1..], n));
      assert [ks[0]] + ks[1..] == ks;
    }
  }

  lemma NamesCons(events: seq<Event>, k: nat, rest: seq<nat>)
    ensures NamesAt(events, [k] + rest) == [NameAt(events, k)] + NamesAt(events, rest)
  {
    assert ([k] + rest)[1..] == rest;
  }

  /** What one event makes of the ticks that were there. */
  lemma StillTickedLast(events: seq<Event>, k: nat)
    requires events != [] && k < |events| - 1
    ensures var n := |events| - 1;
      StillTicked(events, k) <==>
        StillTicked(events[..n], k) && !ClearsTicks(events, n) && !Unticks(events, n, Named(events[k]))
  {
    var n := |events| - 1;
    Last(events);
    forall j | 0 <= j < n
      ensures Ticks(events, j) == Ticks(events[..n], j) && ClearsTicks(events, j) == ClearsTicks(events[..n], j) &&
        Unticks(events, j, Named(events[k])) == Unticks(events[..n], j, Named(events[k]))
    {
      assert At(events[..n], j) == At(events, j);
    }
  }

  /** What the last event does to the selection, read off the event alone. */
  lemma SelectedLast(events: seq<Event>)
    requires events != []
    ensures var n := |events| - 1;
      var before, after := At(events, n).selected, At(events, n + 1).selected;
      after == if ClearsTicks(events, n) then (if Ticks(events, n) then [Named(events[n])] else [])
        else if Ticks(events, n) then before + [Named(events[n])]
        else if Unticks(events, n, Named(events[n])) then Without(before, Named(events[n]))
        else before
  {
    Last(events);
  }

  /** The ticks the last event leaves: it clears all, takes those of one Agent, or leaves them. */
  ghost predicate Leaves(events: seq<Event>, before: seq<nat>, keep: seq<nat>) {
    events != [] && Ascending(keep) &&
    forall k: nat :: k in keep <==> (
      k in before && !ClearsTicks(events, |events| - 1) && !Unticks(events, |events| - 1, NameAt(events, k)))
  }

  lemma LeavesTicked(events: seq<Event>, before: seq<nat>, names: seq<Name>, keep: seq<nat>, k: nat)
    requires Leaves(events, before, keep) && TickedInOrder(events[..|events| - 1], before, names)
    ensures StillTicked(events, k) <==> k in keep || (k == |events| - 1 && Ticks(events, k))
  {
    var n := |events| - 1;
    assert k in before <==> StillTicked(events[..n], k);
    if k < n {
      StillTickedLast(events, k);
    }
  }

  lemma KeptTicks(events: seq<Event>, before: seq<nat>, names: seq<Name>, keep: seq<nat>)
    requires Leaves(events, before, keep) && TickedInOrder(events[..|events| - 1], before, names)
    ensures var n := |events| - 1;
      if Ticks(events, n) then TickedInOrder(events, keep + [n], NamesAt(events, keep) + [Named(events[n])])
      else TickedInOrder(events, keep, NamesAt(events, keep))
  {
    var n := |events| - 1;
    forall k: nat ensures StillTicked(events, k) <==> k in keep || (k == n && Ticks(events, k)) {
      LeavesTicked(events, before, names, keep, k);
    }
    forall i | 0 <= i < |keep| ensures keep[i] < n && StillTicked(events, keep[i]) {
      assert keep[i] in keep && keep[i] in before;
    }
  }

  /** The ticks left by the last event, and their names in the selection it works on. */
  lemma LeftBy(events: seq<Event>, before: seq<nat>) returns (keep: seq<nat>)
    requires events != [] && Ascending(before)
    ensures var n := |events| - 1; var names, name := NamesAt(events, before), Named(events[n]);
      Leaves(events, before, keep) && NamesAt(events, keep) ==
        if ClearsTicks(events, n) then [] else if Unticks(events, n, name) then Without(names, name) else names
  {
    var n := |events| - 1;
    var name := Named(events[n]);
    if ClearsTicks(events, n) {
      keep := [];
    } else if Unticks(events, n, name) {
      keep := Others(events, before, name);
      OthersNamed(events, before, name);
      OthersAscending(events, before, name);
    } else {
      keep := before;
    }
  }

  lemma TickedLast(events: seq<Event>, before: seq<nat>) returns (ks: seq<nat>)
    requires events != [] && TickedInOrder(events[..|events| - 1], before, At(events, |events| - 1).selected)
    ensures TickedInOrder(events, ks, At(events, |events|).selected)
  {
    var n := |events| - 1;
    assert At(events, n).selected == NamesAt(events, before);
    SelectedLast(events);
    var keep := LeftBy(events, before);
    KeptTicks(events, before, At(events, n).selected, keep);
    ks := if Ticks(events, n) then keep + [n] else keep;
  }

  /** In every run the selection is exactly the Agents ticked and not unticked or cleared since, in order. */
  lemma {:induction false} SelectedIsTicked(events: seq<Event>) returns (ks: seq<nat>)
    ensures TickedInOrder(events, ks, Execute(INITIAL, events).selected)
    decreases |events|
  {
    assert events[..|events|] == events;
    if events == [] {
      ks := [];
    } else {
      var before := SelectedIsTicked(events[..|events| - 1]);
      ks := TickedLast(events, before);
    }
  }

  // ------------------------------------------------------------ the scan on display

  ghost predicate ShowsScan(events: seq<Event>, k: nat) {
    k < |events| && (events[k].Scanned? || (events[k].Focused? && Ticks(events, k)))
  }

  ghost predicate DropsScan(events: seq<Event>, k: nat) {
    k < |events| && (events[k].StartRefresh? || events[k].ChooseHost?) && !At(events, k).busy
  }

  function ScanOf(e: Event): Option<Scan> {
    match e
    case Scanned(scan) => Some(scan)
    case Focused(scan, _) => Some(scan)
    case _ => None
  }

  /** Event `k` brought a scan, and nothing has replaced or dropped it since. */
  ghost predicate LatestScan(events: seq<Event>, k: nat) {
    ShowsScan(events, k) && forall j :: k < j < |events| ==> !ShowsScan(events, j) && !DropsScan(events, j)
  }

  lemma LatestScanLast(events: seq<Event>, k: nat)
    requires events != [] && k < |events| - 1
    ensures var n := |events| - 1;
      LatestScan(events, k) <==> LatestScan(events[..n], k) && !ShowsScan(events, n) && !DropsScan(events, n)
  {
    var n := |events| - 1;
    Last(events);
    forall j | 0 <= j < n
      ensures ShowsScan(events, j) == ShowsScan(events[..n], j) && DropsScan(events, j) == DropsScan(events[..n], j)
    {
      assert At(events[..n], j) == At(events, j);
    }
  }

  /** What the last event does to the scan on display. */
  lemma ScanLast(events: seq<Event>)
    requires events != []
    ensures var n := |events| - 1;
      At(events, n + 1).scan == if ShowsScan(events, n) then ScanOf(events[n])
        else if DropsScan(events, n) then None else At(events, n).scan
  {
    Last(events);
  }

  /** In every run the scan on display is exactly the latest one, if it was not dropped since. */
  lemma {:induction false} ScanIsLatest(events: seq<Event>) returns (k: Option<nat>)
    ensures var s := Execute(INITIAL, events);
      if k.Some? then LatestScan(events, k.value) && s.scan == ScanOf(events[k.value])
      else s.scan.None? && forall j: nat :: !LatestScan(events, j)
    decreases |events|
  {
    assert events[..|events|] == events;
    if events == [] {
      k := None;
    } else {
      var n := |events| - 1;
      ScanLast(events);
      k := ScanIsLatest(events[..n]);
      forall j: nat | j < n
        ensures LatestScan(events, j) <==>
          LatestScan(events[..n], j) && !ShowsScan(events, n) && !DropsScan(events, n)
      {
        LatestScanLast(events, j);
      }
      if ShowsScan(events, n) {
        k := Some(n);
      } else if DropsScan(events, n) {
        k := None;
      }
    }
  }

  // ------------------------------------------------------------ the two flags

  datatype Flag = Busy | Quoting

  function Raised(s: State, flag: Flag): bool {
    match flag
    case Busy => s.busy
    case Quoting => s.quoting
  }

  /** A refresh or an import makes the page busy; a request leaving after the debounce makes it quoting. */
  ghost predicate Raises(events: seq<Event>, k: nat, flag: Flag) {
    k < |events| && match flag
      case Busy => (
        !At(events, k).busy && (events[k].StartRefresh? ||
          (events[k].ImportStarted? && At(events, k).quote.Some? && !At(events, k).quoting)))
      case Quoting => events[k].Fire? && At(events, k).timer.Some?
  }

  /** Their ends, and the completion of the latest request. */
  ghost predicate Lowers(events: seq<Event>, k: nat, flag: Flag) {
    k < |events| && match flag
      case Busy => events[k].RefreshDone? || events[k].ImportDone?
      case Quoting => (
        events[k].Complete? && events[k].flight < |At(events, k).flights| &&
        At(events, k).flights[events[k].flight].number == At(events, k).last)
  }

  ghost predicate StillRaised(events: seq<Event>, k: nat, flag: Flag) {
    Raises(events, k, flag) && forall j :: k < j < |events| ==> !Lowers(events, j, flag)
  }

  lemma FlagLast(events: seq<Event>, flag: Flag)
    requires events != []
    ensures var n := |events| - 1;
      Raised(At(events, n + 1), flag) <==>
        Raises(events, n, flag) || (Raised(At(events, n), flag) && !Lowers(events, n, flag))
  {
    Last(events);
  }

  lemma StillRaisedLast(events: seq<Event>, k: nat, flag: Flag)
    requires events != [] && k < |events| - 1
    ensures var n := |events| - 1;
      StillRaised(events, k, flag) <==> StillRaised(events[..n], k, flag) && !Lowers(events, n, flag)
  {
    var n := |events| - 1;
    Last(events);
    forall j | 0 <= j < n
      ensures Raises(events, j, flag) == Raises(events[..n], j, flag) &&
        Lowers(events, j, flag) == Lowers(events[..n], j, flag)
    {
      assert At(events[..n], j) == At(events, j);
    }
  }

  /** In every run the page is busy, or quoting, exactly when something made it so that has not ended since. */
  lemma {:induction false} FlagIsHistory(events: seq<Event>, flag: Flag)
    ensures Raised(Execute(INITIAL, events), flag) <==> exists k: nat :: StillRaised(events, k, flag)
    decreases |events|
  {
    assert events[..|events|] == events;
    if events != [] {
      var n := |events| - 1;
      FlagIsHistory(events[..n], flag);
      FlagLast(events, flag);
      forall k: nat | k < n
        ensures StillRaised(events, k, flag) <==> StillRaised(events[..n], k, flag) && !Lowers(events, n, flag)
      {
        StillRaisedLast(events, k, flag);
      }
      assert StillRaised(events, n, flag) <==> Raises(events, n, flag);
    }
  }

  // ------------------------------------------------------------ what was quoted and submitted

  /** The request was made for the ticks and the scan the page had after `k` events. */
  ghost predicate MadeAt(events: seq<Event>, r: Request, k: nat) {
    k <= |events| && At(events, k).selected == r.selected && r.selected != [] &&
    At(events, k).scan.Some? && At(events, k).scan.value.at == r.at
  }

  ghost predicate Made(events: seq<Event>, r: Request) { exists k: nat :: MadeAt(events, r, k) }

  /** The request is on display, waits for its debounce, or has left. */
  predicate Holds(s: State, r: Request) { s.quote == Some(r) || s.timer == Some(r) || r in s.flights }

  predicate ForPresent(s: State, r: Request) {
    r.selected == s.selected && r.selected != [] && s.scan.Some? && s.scan.value.at == r.at
  }

  lemma EffectRequests(s: State, t: State, r: Request)
    ensures Holds(Effect(s, t), r) ==> Holds(t, r) || ForPresent(Effect(s, t), r)
  {
  }

  /** A request held after one event was held before, or was made for the ticks of that moment. */
  lemma RequestsLast(s: State, e: Event, r: Request)
    ensures Holds(Step(s, e), r) ==> Holds(s, r) || ForPresent(Step(s, e), r)
  {
    match e
    case Tick(n) => EffectRequests(s, s.(selected := s.selected + [n]), r);
    case Untick(n) => EffectRequests(s, s.(selected := Without(s.selected, n)), r);
    case StartRefresh => EffectRequests(s, s.(busy := true, scan := None, selected := []), r);
    case Scanned(scan) => EffectRequests(s, s.(scan := Some(scan)), r);
    case Focused(scan, n) => EffectRequests(s, s.(scan := Some(scan), selected := [n]), r);
    case ChooseHost => EffectRequests(s, s.(scan := None, selected := []), r);
    case ImportDone(_) => EffectRequests(s, s.(busy := false, selected := []), r);
    case _ =>
  }

  /** Whatever waits, is in flight or is on display as a quote was asked for ticks and a scan the page really had. */
  lemma {:induction false} RequestsAreMade(events: seq<Event>, r: Request)
    ensures Holds(Execute(INITIAL, events), r) ==> Made(events, r)
    decreases |events|
  {
    assert events[..|events|] == events;
    if events != [] {
      var n := |events| - 1;
      Last(events);
      RequestsAreMade(events[..n], r);
      RequestsLast(At(events, n), events[n], r);
      if k: nat :| MadeAt(events[..n], r, k) {
        assert At(events[..n], k) == At(events, k);
        assert MadeAt(events, r, k);
      }
      assert ForPresent(At(events, n + 1), r) ==> MadeAt(events, r, n + 1);
    }
  }

  // ------------------------------------------------------------ the quote on display

  /** Event `k` answers the latest request with a quote. */
  ghost predicate Answers(events: seq<Event>, k: nat) {
    k < |events| && events[k].Complete? && events[k].ok && events[k].flight < |At(events, k).flights| &&
    At(events, k).flights[events[k].flight].number == At(events, k).last
  }

  /** Event `k` changes the ticks or the time of the scan. */
  ghost predicate Changes(events: seq<Event>, k: nat) {
    k < |events| && var s, t := At(events, k), At(events, k + 1);
    s.selected != t.selected || s.scan.Some? != t.scan.Some? || (s.scan.Some? && s.scan.value.at != t.scan.value.at)
  }

  /** Event `k` brought the quote, and neither a later answer nor a change came since. */
  ghost predicate LatestAnswer(events: seq<Event>, k: nat) {
    Answers(events, k) && forall j :: k < j < |events| ==> !Answers(events, j) && !Changes(events, j)
  }

  lemma KeyChanges(s: State, e: Event)
    requires Inv(s)
    ensures var t := Step(s, e);
      SameKey(s, t) <==> (
        s.selected == t.selected && s.scan.Some? == t.scan.Some? &&
        (s.scan.Some? ==> s.scan.value.at == t.scan.value.at))
  {
    StepKeeps(s, e);
    if SameKey(s, Step(s, e)) {
      JoinInjective(s.selected, Step(s, e).selected);
    }
  }

  lemma EffectQuote(s: State, t: State)
    ensures Effect(s, t).selected == t.selected && Effect(s, t).scan == t.scan
    ensures Effect(s, t).quote == if SameKey(s, t) then t.quote else None
  {
  }

  lemma StepQuote(s: State, e: Event)
    ensures var t := Step(s, e);
      t.quote == if !SameKey(s, t) then None
        else if e.Complete? && e.ok && e.flight < |s.flights| && s.flights[e.flight].number == s.last
        then Some(s.flights[e.flight]) else s.quote
  {
    match e
    case Tick(n) => EffectQuote(s, s.(selected := s.selected + [n]));
    case Untick(n) => EffectQuote(s, s.(selected := Without(s.selected, n)));
    case StartRefresh => EffectQuote(s, s.(busy := true, scan := None, selected := []));
    case Scanned(scan) => EffectQuote(s, s.(scan := Some(scan)));
    case Focused(scan, n) => EffectQuote(s, s.(scan := Some(scan), selected := [n]));
    case ChooseHost => EffectQuote(s, s.(scan := None, selected := []));
    case ImportDone(_) => EffectQuote(s, s.(busy := false, selected := []));
    case _ =>
  }

  lemma LatestAnswerLast(events: seq<Event>, k: nat)
    requires events != [] && k < |events| - 1
    ensures var n := |events| - 1;
      LatestAnswer(events, k) <==> LatestAnswer(events[..n], k) && !Answers(events, n) && !Changes(events, n)
  {
    var n := |events| - 1;
    Last(events);
    forall j | 0 <= j < n
      ensures Answers(events, j) == Answers(events[..n], j) && Changes(events, j) == Changes(events[..n], j)
    {
      assert At(events[..n], j) == At(events, j) && At(events[..n], j + 1) == At(events, j + 1);
    }
  }

  /** In every run the quote on display is the one the latest answer brought, if nothing it was for changed since. */
  lemma {:induction false} QuoteIsLatestAnswer(events: seq<Event>) returns (k: Option<nat>)
    ensures var s := Execute(INITIAL, events);
      if k.Some? then
        LatestAnswer(events, k.value) && s.quote == Some(At(events, k.value).flights[events[k.value].flight])
      else s.quote.None? && forall j: nat :: !LatestAnswer(events, j)
    decreases |events|
  {
    assert events[..|events|] == events;
    if events == [] {
      k := None;
    } else {
      var n := |events| - 1;
      Last(events);
      ExecuteKeeps(INITIAL, events[..n]);
      KeyChanges(At(events, n), events[n]);
      StepQuote(At(events, n), events[n]);
      k := QuoteIsLatestAnswer(events[..n]);
      forall j: nat | j < n
        ensures LatestAnswer(events, j) <==> LatestAnswer(events[..n], j) && !Answers(events, n) && !Changes(events, n)
      {
        LatestAnswerLast(events, j);
      }
      if Answers(events, n) {
        k := Some(n);
      } else if Changes(events, n) {
        k := None;
      }
    }
  }

  // ------------------------------------------------------------ every request leaves once

  /** Requests left in the order they were made, and one that waits is newer than all that left. */
  ghost predicate LeftInOrder(s: State) {
    (forall i, j :: 0 <= i < j < |s.flights| ==> s.flights[i].number < s.flights[j].number) &&
    (forall i :: 0 <= i < |s.flights| ==> s.flights[i].number <= s.last) &&
    (s.timer.Some? ==> (
      s.timer.value.number == s.last &&
      forall i :: 0 <= i < |s.flights| ==> s.flights[i].number < s.timer.value.number))
  }

  lemma EffectOrder(s: State, t: State)
    requires LeftInOrder(s) && t.flights == s.flights && t.timer == s.timer && t.last == s.last
    ensures LeftInOrder(Effect(s, t))
  {
  }

  lemma StepOrder(s: State, e: Event)
    requires LeftInOrder(s)
    ensures LeftInOrder(Step(s, e))
  {
    match e
    case Tick(n) => EffectOrder(s, s.(selected := s.selected + [n]));
    case Untick(n) => EffectOrder(s, s.(selected := Without(s.selected, n)));
    case StartRefresh => EffectOrder(s, s.(busy := true, scan := None, selected := []));
    case Scanned(scan) => EffectOrder(s, s.(scan := Some(scan)));
    case Focused(scan, n) => EffectOrder(s, s.(scan := Some(scan), selected := [n]));
    case ChooseHost => EffectOrder(s, s.(scan := None, selected := []));
    case ImportDone(_) => EffectOrder(s, s.(busy := false, selected := []));
    case _ =>
  }

  /** In every run no request leaves twice, and requests leave in the order they were made. */
  lemma {:induction false} RequestsLeaveOnce(s: State, events: seq<Event>)
    requires LeftInOrder(s)
    ensures LeftInOrder(Execute(s, events))
    decreases |events|
  {
    if events != [] {
      StepOrder(s, events[0]);
      RequestsLeaveOnce(Step(s, events[0]), events[1..]);
    }
  }

  // ------------------------------------------------------------ theorems

  /** In every interleaving, while at least one Agent is ticked the quote on display is absent, or was computed for
      exactly the ticks not taken away since, in their order, and for the latest scan. */
  lemma DisplayedQuoteMatches(events: seq<Event>) returns (ks: seq<nat>, k: Option<nat>)
    ensures var s := Execute(INITIAL, events);
      s.selected != [] && s.quote.Some? ==>
        TickedInOrder(events, ks, s.quote.value.selected) && ks != [] &&
        k.Some? && LatestScan(events, k.value) && ScanOf(events[k.value]).Some? &&
        s.quote.value.at == ScanOf(events[k.value]).value.at
  {
    ExecuteKeeps(INITIAL, events);
    ks := SelectedIsTicked(events);
    k := ScanIsLatest(events);
  }

  /** In every run, an import submits exactly when the button is enabled, unless a lapsing quote had nothing left to be
      renewed for. It submits exactly the ticks not taken away since, in their order, precisely when there are any;
      otherwise it submits the ticks of an earlier moment. */
  lemma SubmitsTheTicksExactly(events: seq<Event>, lapsed: bool) returns (ks: seq<nat>)
    ensures var s := Execute(INITIAL, events);
      var s' := Step(s, ImportStarted(lapsed));
      (|s'.submitted| > |s.submitted| <==>
        s.quote.Some? && !s.busy && !s.quoting && !(lapsed && forall k: nat :: !StillTicked(events, k))) &&
      (|s'.submitted| == |s.submitted| ==> s'.submitted == s.submitted) &&
      (|s'.submitted| > |s.submitted| ==> (
        var sent := s'.submitted[|s.submitted|];
        s'.submitted == s.submitted + [sent] && sent != [] &&
        (TickedInOrder(events, ks, sent) <==> exists k: nat :: StillTicked(events, k)) &&
        ((forall k: nat :: !StillTicked(events, k)) ==>
          exists j: nat :: j < |events| && At(events, j).selected == sent)))
  {
    ExecuteKeeps(INITIAL, events);
    ks := SelectedIsTicked(events);
    var s := Execute(INITIAL, events);
    assert s.selected != [] ==> StillTicked(events, ks[0]);
    if s.selected == [] && s.quote.Some? {
      RequestsAreMade(events, s.quote.value);
      var j: nat :| MadeAt(events, s.quote.value, j);
      assert events[..|events|] == events;
      assert j < |events|;
    }
  }

  /** A tick in a quiet page, its debounce and a successful answer bring the quote for all present ticks. */
  lemma QuoteArrives(s: State, n: Name)
    requires Inv(s) && !s.busy && s.scan.Some? && n in s.scan.value.instances && n != "" && ',' !in n
    ensures var s' := Step(Step(Step(s, Tick(n)), Fire), Complete(|s.flights|, true));
      s'.selected == s.selected + [n] && ImportEnabled(s') && s'.submitted == s.submitted &&
      s'.quote.Some? && s'.quote.value.selected == s.selected + [n] && s'.quote.value.at == s.scan.value.at
  {
    var ticked := s.(selected := s.selected + [n]);
    assert |ticked.selected| == |s.selected| + 1;
    if SameKey(s, ticked) {
      JoinInjective(s.selected, ticked.selected);
    }
  }
}
