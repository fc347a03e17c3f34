/**
 * The race between ticking Agents and quoting their import: a debounce timer, a sequence number
 * and completions that may arrive late. Every handler is followed by the render and the effect it
 * triggers; the effect runs only when its dependency key changed.
 */
module DiscoverQuote {
  import opened Common

  type Name = string

  /** The key `selected.join(",")`. */
  function Join(names: seq<Name>): string {
    if names == [] then "" else if |names| == 1 then names[0] else names[0] + "," + Join(names[1..])
  }

  predicate Plain(n: Name) { n != "" && ',' !in n }

  datatype Scan = Scan(at: nat, instances: seq<Name>)
  /** What a quote was computed for. */
  datatype Request = Request(number: nat, selected: seq<Name>, at: nat)
  /** `submitted` logs the selections sent for import. */
  datatype State = State(
    selected: seq<Name>, scan: Option<Scan>, quote: Option<Request>, quoting: bool, busy: bool,
    last: nat, timer: Option<Request>, flights: seq<Request>, submitted: seq<seq<Name>>)

  datatype Event =
    | Tick(name: Name)
    | Untick(name: Name)
    | StartRefresh
    | Scanned(scan: Scan)
    | RefreshDone
    | Focused(scan: Scan, name: Name)
    | ChooseHost
    | Fire
    | Complete(flight: nat, ok: bool)
    | ImportStarted(lapsed: bool)
    | ImportDone(confirmed: bool)

  const INITIAL := State([], None, None, false, false, 0, None, [], [])

  predicate SameKey(s: State, t: State) {
    Join(s.selected) == Join(t.selected) &&
    (s.scan.Some? <==> t.scan.Some?) && (s.scan.Some? ==> s.scan.value.at == t.scan.value.at)
  }

  /** The effect: clear the timer and the quote, then start a new request unless nothing can be quoted. */
  function Effect(s: State, t: State): State {
    if SameKey(s, t) then t
    else if t.selected == [] || t.scan.None? then t.(quote := None, timer := None)
    else t.(quote := None, last := t.last + 1, timer := Some(Request(t.last + 1, t.selected, t.scan.value.at)))
  }

  function Without(names: seq<Name>, n: Name): (r: seq<Name>)
    ensures forall x :: x in r ==> x in names
  {
    if names == [] then [] else if names[0] == n then Without(names[1..], n) else [names[0]] + Without(names[1..], n)
  }

  predicate Listed(s: State, n: Name) { s.scan.Some? && n in s.scan.value.instances && Plain(n) }

  function Step(s: State, e: Event): State {
    match e
    case Tick(n) => if s.busy || !Listed(s, n) then s else Effect(s, s.(selected := s.selected + [n]))
    case Untick(n) => if s.busy || !Listed(s, n) then s else Effect(s, s.(selected := Without(s.selected, n)))
    case StartRefresh => if s.busy then s else Effect(s, s.(busy := true, scan := None, selected := []))
    case Scanned(scan) => Effect(s, s.(scan := Some(scan)))
    case RefreshDone => s.(busy := false)
    case Focused(scan, n) =>
      if Plain(n) && n in scan.instances then Effect(s, s.(scan := Some(scan), selected := [n])) else s
    case ChooseHost => if s.busy then s else Effect(s, s.(scan := None, selected := []))
    case Fire => if s.timer.None? then s else s.(quoting := true, timer := None, flights := s.flights + [s.timer.value])
    case Complete(i, ok) =>
      if i >= |s.flights| || s.flights[i].number != s.last then s
      else s.(quote := if ok then Some(s.flights[i]) else s.quote, quoting := false)
    case ImportStarted(lapsed) =>
      // A quote about to lapse is renewed for the present ticks, which fails when there are none.
      if !ImportEnabled(s) then s
      else if !lapsed then s.(busy := true, submitted := s.submitted + [s.quote.value.selected])
      else if s.selected == [] then s.(busy := true)
      else s.(busy := true, submitted := s.submitted + [s.selected])
    case ImportDone(confirmed) => if confirmed then Effect(s, s.(busy := false, selected := [])) else s.(busy := false)
  }

  function Execute(s: State, events: seq<Event>): State
    decreases |events|
  {
    if events == [] then s else Execute(Step(s, events[0]), events[1..])
  }

  predicate ImportEnabled(s: State) { s.quote.Some? && !s.busy && !s.quoting }

  // ------------------------------------------------------------ the key

  lemma PlainPrefix(a: Name, b: Name, x: string, y: string)
    requires Plain(a) && Plain(b) && a + "," + x == b + "," + y
    ensures a == b && x == y
  {
    var s := a + "," + x;
    assert s[|a|] == ',' && s[|b|] == ',';
    assert |a| == |b| by {
      assert s[..|b|] == b && s[..|a|] == a;
    }
    assert a == s[..|a|] && b == s[..|b|];
    assert x == s[|a| + 1..] && y == s[|b| + 1..];
  }

  lemma PlainNotJoined(a: Name, b: Name, rest: string)
    requires Plain(a)
    ensures a != b + "," + rest
  {
    assert (b + "," + rest)[|b|] == ',';
  }

  /** For names without commas the key determines the selection, order included. */
  lemma {:induction false} JoinInjective(a: seq<Name>, b: seq<Name>)
    requires (forall i :: 0 <= i < |a| ==> Plain(a[i])) && (forall i :: 0 <= i < |b| ==> Plain(b[i]))
    requires Join(a) == Join(b)
    ensures a == b
    decreases |a|
  {
    if |a| >= 2 && |b| >= 2 {
      PlainPrefix(a[0], b[0], Join(a[1..]), Join(b[1..]));
      JoinInjective(a[1..], b[1..]);
      assert a == [a[0]] + a[1..] && b == [b[0]] + b[1..];
    } else if |a| >= 2 && |b| == 1 {
      PlainNotJoined(b[0], a[0], Join(a[1..]));
    } else if |a| == 1 && |b| >= 2 {
      PlainNotJoined(a[0], b[0], Join(b[1..]));
    }
  }

  // ------------------------------------------------------------ invariant

  /** The request was made for exactly the present ticks and scan. */
  ghost predicate Matches(s: State, r: Request) {
    s.scan.Some? && r.selected == s.selected && r.at == s.scan.value.at
  }

  ghost predicate Inv(s: State) {
    (forall i :: 0 <= i < |s.selected| ==> Plain(s.selected[i])) &&
    (s.selected != [] ==> s.scan.Some?) &&
    (s.quote.Some? ==> s.quote.value.selected != []) &&
    (s.timer.Some? ==>
      s.timer.value.selected != [] && s.selected != [] && s.timer.value.number == s.last &&
      Matches(s, s.timer.value)) &&
    (forall i :: 0 <= i < |s.flights| ==>
      s.flights[i].selected != [] && s.flights[i].number <= s.last &&
        (s.flights[i].number == s.last && s.selected != [] ==> Matches(s, s.flights[i]))) &&
    (s.quote.Some? && s.selected != [] ==> Matches(s, s.quote.value))
  }

  lemma EffectKeeps(s: State, t: State)
    requires Inv(s) && t == s.(selected := t.selected, scan := t.scan, busy := t.busy)
    requires (forall i :: 0 <= i < |t.selected| ==> Plain(t.selected[i])) && (t.selected != [] ==> t.scan.Some?)
    ensures Inv(Effect(s, t))
  {
    if SameKey(s, t) {
      JoinInjective(s.selected, t.selected);
    }
  }

  lemma TickKeeps(s: State, n: Name)
    requires Inv(s) && Listed(s, n)
    ensures Inv(Effect(s, s.(selected := s.selected + [n]))) && Inv(Effect(s, s.(selected := Without(s.selected, n))))
  {
    EffectKeeps(s, s.(selected := s.selected + [n]));
    var rest := Without(s.selected, n);
    assert forall i :: 0 <= i < |rest| ==> rest[i] in s.selected;
    EffectKeeps(s, s.(selected := rest));
  }

  lemma ScanKeeps(s: State, scan: Scan, n: Name)
    requires Inv(s)
    ensures Inv(Effect(s, s.(scan := Some(scan)))) &&
      (Plain(n) ==> Inv(Effect(s, s.(scan := Some(scan), selected := [n]))))
  {
    EffectKeeps(s, s.(scan := Some(scan)));
    if Plain(n) {
      EffectKeeps(s, s.(scan := Some(scan), selected := [n]));
    }
  }

  lemma QuoteKeeps(s: State, e: Event)
    requires Inv(s) && (e.Fire? || e.Complete? || e.ImportStarted? || e.RefreshDone?)
    ensures Inv(Step(s, e))
  {
  }

  lemma StepKeeps(s: State, e: Event)
    requires Inv(s)
    ensures Inv(Step(s, e))
  {
    match e
    case Tick(n) => if Listed(s, n) { TickKeeps(s, n); }
    case Untick(n) => if Listed(s, n) { TickKeeps(s, n); }
    case StartRefresh => EffectKeeps(s, s.(busy := true, scan := None, selected := []));
    case Scanned(scan) => ScanKeeps(s, scan, "");
    case Focused(scan, n) => ScanKeeps(s, scan, n);
    case ChooseHost => EffectKeeps(s, s.(scan := None, selected := []));
    case ImportDone(_) => EffectKeeps(s, s.(busy := false, selected := []));
    case _ => QuoteKeeps(s, e);
  }

  lemma {:induction false} ExecuteKeeps(s: State, events: seq<Event>)
    requires Inv(s)
    ensures Inv(Execute(s, events))
    decreases |events|
  {
    if events != [] {
      StepKeeps(s, events[0]);
      ExecuteKeeps(Step(s, events[0]), events[1..]);
    }
  }

  // ------------------------------------------------------------ theorems

  /** A quote on display need not be for the present ticks once there are none: emptying the selection does not
      advance the sequence number, so whenever a first quote is in flight and its Agent is unticked, the late
      completion shows a quote for the unticked Agent and enables the import button. */
  lemma UntickedQuoteShown(s: State, n: Name)
    requires Inv(s) && Listed(s, n) && s.selected == [] && !s.busy
    ensures var s1 := Step(Step(s, Tick(n)), Fire);
      var s2 := Step(Step(s1, Untick(n)), Complete(|s.flights|, true));
      s2.selected == [] && s2.quote.Some? && s2.quote.value.selected == [n] && ImportEnabled(s2)
  {
    assert !SameKey(s, s.(selected := [n]));
    assert s.selected + [n] == [n];
    var s1 := Step(Step(s, Tick(n)), Fire);
    assert s1.selected == [n] && s1.flights[|s.flights|] == Request(s.last + 1, [n], s.scan.value.at);
    assert Without([n], n) == [] by { assert [n][1..] == []; }
  }

  /** Such a leftover quote never survives the next tick. */
  lemma LeftoverQuoteCleared(s: State, n: Name)
    requires Inv(s) && Listed(s, n) && s.selected == [] && !s.busy
    ensures Step(s, Tick(n)).quote.None?
  {
    assert s.selected + [n] == [n];
  }
}
