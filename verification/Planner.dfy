/**
 * The deterministic planner (read, compare-and-swap write, read) and the Host loop that runs
 * any planner against a file store. A content hash is an injective constructor; the empty
 * expected hash of the program is `NoHash`, which also stands for a missing file.
 */
module Planner {
  import opened Common

  type Path = string
  type Store = map<Path, string>
  datatype Hash = NoHash | HashOf(content: string)
  datatype Goal = Goal(path: Path, content: string)
  datatype Call = Read(path: Path) | Write(path: Path, content: string, expected: Hash)
  datatype Observation = Observation(isRead: bool, path: Path, hash: Hash, missing: bool)

  // ------------------------------------------------------------ the planner

  /** The observations of one path, in order. */
  function Of(obs: seq<Observation>, p: Path): seq<Observation> {
    if obs == [] then [] else
    var last := obs[|obs| - 1];
    Of(obs[..|obs| - 1], p) + (if last.path == p then [last] else [])
  }

  /** The latest observation of the goal's path is a successful read of the approved content. */
  predicate Met(g: Goal, obs: seq<Observation>) {
    var seen := Of(obs, g.path);
    seen != [] && var latest := seen[|seen| - 1];
    latest.isRead && !latest.missing && latest.hash == HashOf(g.content)
  }

  function FirstOpen(goals: seq<Goal>, obs: seq<Observation>): Option<Goal> {
    if goals == [] then None else if Met(goals[0], obs) then FirstOpen(goals[1..], obs) else Some(goals[0])
  }

  function NextCall(goals: seq<Goal>, obs: seq<Observation>): Option<Call> {
    match FirstOpen(goals, obs)
    case None => None
    case Some(g) =>
      var seen := Of(obs, g.path);
      if seen != [] && seen[|seen| - 1].isRead then Some(Write(g.path, g.content, seen[|seen| - 1].hash))
        else Some(Read(g.path))
  }

  // ------------------------------------------------------------ the store

  function HashAt(store: Store, p: Path): Hash {
    if p in store then HashOf(store[p]) else NoHash
  }

  /** A write replaces exactly the expected content; the empty hash only creates. A conflict changes nothing. */
  function Perform(store: Store, call: Call): (Store, Option<Observation>) {
    match call
    case Read(p) => (store, Some(Observation(true, p, HashAt(store, p), p !in store)))
    case Write(p, content, expected) =>
      if HashAt(store, p) == expected then (store[p := content], Some(Observation(false, p, HashOf(content), false)))
      else (store, None)
  }

  // ------------------------------------------------------------ the Host loop

  datatype Ending =
    | Submitted | ModelUnavailable | ModelLimit | Cancelled | BudgetExhausted | ModelStopped | BoundaryDenied | Conflict
  datatype Host = Host(store: Store, obs: seq<Observation>, measured: set<Path>, used: nat)
  datatype Report = Report(ending: Ending, host: Host)
  /** `goals` maps each approved path to its approved content, `plan` is the model, `check` the authority check
      around step k. */
  datatype Rules = Rules(goals: map<Path, string>, plan: seq<Observation> -> Option<Call>, check: nat -> bool,
    maxCalls: nat)

  /** The approved files by path. */
  function Approval(goals: seq<Goal>): map<Path, string> {
    if goals == [] then map[] else
    var last := goals[|goals| - 1];
    Approval(goals[..|goals| - 1])[last.path := last.content]
  }

  /** Only approved paths, and only the approved content. */
  predicate Approved(r: Rules, call: Call) {
    call.path in r.goals && (call.Write? ==> call.content == r.goals[call.path])
  }

  predicate Measures(r: Rules, o: Observation) {
    o.isRead && o.path in r.goals && o.hash == HashOf(r.goals[o.path])
  }

  /** One request: the step's ending, or the next Host state. */
  function Request(r: Rules, step: nat, h: Host): Report {
    if !r.check(step) then Report(Cancelled, h) else
    if h.used >= r.maxCalls then Report(BudgetExhausted, h) else
    match r.plan(h.obs)
    case None => Report(ModelStopped, h)
    case Some(call) =>
      if !Approved(r, call) then Report(BoundaryDenied, h) else
      var (store, seen) := Perform(h.store, call);
      if seen.None? then Report(Conflict, h.(used := h.used + 1)) else
      var measured := (h.measured - {call.path}) + (if Measures(r, seen.value) then {call.path} else {});
      var next := Host(store, h.obs + [seen.value], measured, h.used + 1);
      Report(if r.goals.Keys <= measured then Submitted else ModelLimit, next)
  }

  /** The one reason each request ends a run, in the order they are looked at, and what it leaves: nothing is touched
      by any of them, and only a refused write is charged. Otherwise the call is carried out and charged, and the run
      is submitted exactly when this was a read that measured the last approved file. */
  lemma RequestEnds(r: Rules, step: nat, h: Host)
    ensures var out, call := Request(r, step, h), r.plan(h.obs);
      (out.ending == Cancelled <==> !r.check(step)) &&
      (out.ending == BudgetExhausted <==> r.check(step) && h.used >= r.maxCalls) &&
      (out.ending == ModelStopped <==> r.check(step) && h.used < r.maxCalls && call == None) &&
      (out.ending == BoundaryDenied <==>
        r.check(step) && h.used < r.maxCalls && call.Some? &&
        (call.value.path !in r.goals || (call.value.Write? && call.value.content != r.goals[call.value.path]))) &&
      (out.ending == Conflict <==>
        r.check(step) && h.used < r.maxCalls && call.Some? && call.value.Write? && call.value.path in r.goals &&
        call.value.content == r.goals[call.value.path] && call.value.expected != HashAt(h.store, call.value.path)) &&
      (out.ending == Submitted <==>
        r.check(step) && h.used < r.maxCalls && call.Some? && call.value.Read? && call.value.path in r.goals &&
        HashAt(h.store, call.value.path) == HashOf(r.goals[call.value.path]) &&
        r.goals.Keys <= h.measured + {call.value.path}) &&
      (out.ending in {Cancelled, BudgetExhausted, ModelStopped, BoundaryDenied} ==> out.host == h) &&
      (out.ending == Conflict ==> out.host == h.(used := h.used + 1))
    ensures var out, call := Request(r, step, h), r.plan(h.obs);
      out.ending in {Submitted, ModelLimit} ==> (
        call.Some? && out.host.used == h.used + 1 && |out.host.obs| == |h.obs| + 1 &&
          out.host.obs[..|h.obs|] == h.obs &&
        (call.value.Read? ==> (
          var p := call.value.path;
          out.host.store == h.store &&
          out.host.obs[|h.obs|] == Observation(true, p, HashAt(h.store, p), p !in h.store))) &&
        (call.value.Write? ==> (
          var p, content := call.value.path, call.value.content;
          out.host.store == h.store[p := content] &&
          out.host.obs[|h.obs|] == Observation(false, p, HashOf(content), false))))
  {
  }

  /** Requests one after another until one ends the run or none is left. */
  function Iterate(request: (nat, Host) -> Report, step: nat, left: nat, h: Host): Report
    decreases left
  {
    if left == 0 then Report(ModelLimit, h) else
    var now := request(step, h);
    if now.ending.ModelLimit? then Iterate(request, step + 1, left - 1, now.host) else now
  }

  function Requests(r: Rules): (nat, Host) -> Report { (step: nat, h: Host) => Request(r, step, h) }

  function Loop(r: Rules, left: nat, store: Store): Report { Iterate(Requests(r), 0, left, Host(store, [], {}, 0)) }

  predicate Distinct(goals: seq<Goal>) { forall i, j :: 0 <= i < j < |goals| ==> goals[i].path != goals[j].path }

  predicate ValidTask(goals: seq<Goal>) { 1 <= |goals| <= 3 && Distinct(goals) }

  /** The Host's own loop, refining `Loop` after validating the task again. */
  method RunPlannedFileGoals(goals: seq<Goal>, plan: seq<Observation> -> Option<Call>, check: nat -> bool,
    maxCalls: nat, maxRequests: nat, store: Store)
    returns (out: Report)
    ensures 1 <= maxRequests <= 32 && 1 <= |goals| <= 3 && Distinct(goals) ==>
      out == Loop(Rules(Approval(goals), plan, check, maxCalls), maxRequests, store)
    ensures !(1 <= maxRequests <= 32) ==> out == Report(ModelUnavailable, Host(store, [], {}, 0))
    ensures 1 <= maxRequests <= 32 && !(1 <= |goals| <= 3 && Distinct(goals)) ==>
      out == Report(BoundaryDenied, Host(store, [], {}, 0))
  {
    var h := Host(store, [], {}, 0);
    if maxRequests < 1 || maxRequests > 32 {
      return Report(ModelUnavailable, h);
    }
    if !ValidTask(goals) {
      return Report(BoundaryDenied, h);
    }
    var r := Rules(Approval(goals), plan, check, maxCalls);
    var step := 0;
    ghost var goal := Loop(r, maxRequests, store);
    while step < maxRequests
      invariant step <= maxRequests
      invariant goal == Iterate(Requests(r), step, maxRequests - step, h)
    {
      var now := Request(r, step, h);
      if !now.ending.ModelLimit? {
        return now;
      }
      h := now.host;
      step := step + 1;
    }
    return Report(ModelLimit, h);
  }

  // ------------------------------------------------------------ any planner at all

  /** What holds whatever the model answers. */
  ghost predicate Safe(r: Rules, start: Store, h: Host) {
    h.used <= r.maxCalls && h.measured <= r.goals.Keys &&
    (forall p :: p !in r.goals ==> HashAt(h.store, p) == HashAt(start, p)) &&
    (forall p :: p in r.goals ==> HashAt(h.store, p) in {HashAt(start, p), HashOf(r.goals[p])}) &&
    (forall p :: p in h.measured ==> HashAt(h.store, p) == HashOf(r.goals[p]))
  }

  lemma RequestSafe(r: Rules, step: nat, start: Store, h: Host)
    requires Safe(r, start, h)
    ensures Safe(r, start, Request(r, step, h).host)
  {
  }

  /** The Host counts its measurements; only approved paths are ever measured, so counting them is comparing them. */
  lemma CountingMeasurements(r: Rules, start: Store, h: Host)
    requires Safe(r, start, h)
    ensures |h.measured| == |r.goals| <==> r.goals.Keys <= h.measured
  {
    if r.goals.Keys <= h.measured {
      assert r.goals.Keys == h.measured;
    }
    assert |r.goals.Keys - h.measured| == |r.goals| - |h.measured|;
  }

  lemma {:induction false} IterateSafe(r: Rules, step: nat, left: nat, start: Store, h: Host)
    requires Safe(r, start, h)
    ensures var out := Iterate(Requests(r), step, left, h);
      Safe(r, start, out.host) && (out.ending.Submitted? ==> r.goals.Keys <= out.host.measured)
    decreases left
  {
    if left > 0 {
      RequestSafe(r, step, start, h);
      var now := Requests(r)(step, h);
      if now.ending.ModelLimit? {
        IterateSafe(r, step + 1, left - 1, start, now.host);
      }
    }
  }

  /** Whatever model is plugged in: no path outside the approval changes, approved files hold their old or their
      approved content, the budget is respected, and a submission means every approved file holds its approved
      content. */
  lemma AnyModelIsBounded(r: Rules, left: nat, start: Store)
    ensures var out := Loop(r, left, start);
      out.host.used <= r.maxCalls &&
      (forall p :: p !in r.goals ==> HashAt(out.host.store, p) == HashAt(start, p)) &&
      (forall p :: p in r.goals ==> HashAt(out.host.store, p) in {HashAt(start, p), HashOf(r.goals[p])}) &&
      (out.ending.Submitted? ==> forall p :: p in r.goals ==> HashAt(out.host.store, p) == HashOf(r.goals[p]))
  {
    IterateSafe(r, 0, left, start, Host(start, [], {}, 0));
  }

  // ------------------------------------------------------------ the planner under interference

  lemma {:induction false} FirstOpenIsOpen(goals: seq<Goal>, obs: seq<Observation>)
    ensures var g := FirstOpen(goals, obs); g.Some? ==> g.value in goals && !Met(g.value, obs)
  {
    if goals != [] && Met(goals[0], obs) {
      FirstOpenIsOpen(goals[1..], obs);
    }
  }

  /** For every observation history and every present store: a write the planner emits follows a latest observation
      of that path that is a read and carries that read's hash; so when it commits, what it replaces is exactly what
      that read saw. */
  lemma NeverOverwritesUnread(goals: seq<Goal>, obs: seq<Observation>, store: Store)
    ensures var call := NextCall(goals, obs);
      call.Some? && call.value.Write? ==>
        var seen := Of(obs, call.value.path);
        seen != [] && seen[|seen| - 1].isRead && call.value.expected == seen[|seen| - 1].hash &&
        Goal(call.value.path, call.value.content) in goals &&
        (Perform(store, call.value).1.Some? <==> HashAt(store, call.value.path) == seen[|seen| - 1].hash)
  {
    FirstOpenIsOpen(goals, obs);
  }

  /** A history the planner made while the store changed arbitrarily between its requests: `stores[k]` is what
      request `k` met. */
  ghost predicate Made(goals: seq<Goal>, obs: seq<Observation>, stores: seq<Store>) {
    |stores| == |obs| &&
    forall k {:trigger obs[k]} :: 0 <= k < |obs| ==>
      NextCall(goals, obs[..k]).Some? && Perform(stores[k], NextCall(goals, obs[..k]).value).1 == Some(obs[k])
  }

  /** Reads and writes take turns, starting with a read; every write left the approved content, and every read but
      the last found something else. */
  ghost predicate Alternating(g: Goal, seen: seq<Observation>) {
    (forall k {:trigger seen[k]} :: 0 <= k < |seen| ==> (seen[k].isRead <==> k % 2 == 0)) &&
    (forall k {:trigger seen[k]} :: 0 <= k < |seen| && k % 2 == 1 ==> seen[k].hash == HashOf(g.content)) &&
    (forall k {:trigger seen[k]} :: 0 <= k < |seen| - 1 && k % 2 == 0 ==> seen[k].hash != HashOf(g.content))
  }

  /** A missing file has no hash. */
  ghost predicate Truthful(obs: seq<Observation>) {
    forall k {:trigger obs[k]} :: 0 <= k < |obs| && obs[k].missing ==> obs[k].hash.NoHash?
  }

  lemma MadePrefix(goals: seq<Goal>, obs: seq<Observation>, stores: seq<Store>)
    requires Made(goals, obs, stores) && obs != []
    ensures var n := |obs| - 1;
      Made(goals, obs[..n], stores[..n]) && NextCall(goals, obs[..n]).Some? &&
      Perform(stores[n], NextCall(goals, obs[..n]).value).1 == Some(obs[n])
  {
    var n := |obs| - 1;
    assert obs[n] == obs[n];
    forall k | 0 <= k < n ensures NextCall(goals, obs[..n][..k]).Some? &&
      Perform(stores[..n][k], NextCall(goals, obs[..n][..k]).value).1 == Some(obs[..n][k])
    {
      assert obs[..n][..k] == obs[..k] && obs[..n][k] == obs[k];
    }
  }

  lemma {:induction false} MadeTruthful(goals: seq<Goal>, obs: seq<Observation>, stores: seq<Store>)
    requires Made(goals, obs, stores)
    ensures Truthful(obs)
    decreases |obs|
  {
    if obs != [] {
      MadePrefix(goals, obs, stores);
      MadeTruthful(goals, obs[..|obs| - 1], stores[..|obs| - 1]);
    }
  }

  lemma {:induction false} OfTruthful(obs: seq<Observation>, p: Path)
    requires Truthful(obs)
    ensures Truthful(Of(obs, p))
  {
    if obs != [] {
      OfTruthful(obs[..|obs| - 1], p);
    }
  }

  lemma AlternatesOneMore(goals: seq<Goal>, obs: seq<Observation>, store: Store, o: Observation, j: nat)
    requires Distinct(goals) && j < |goals| && Truthful(Of(obs, goals[j].path)) &&
      Alternating(goals[j], Of(obs, goals[j].path))
    requires NextCall(goals, obs).Some? && Perform(store, NextCall(goals, obs).value).1 == Some(o) &&
      o.path == goals[j].path
    ensures Alternating(goals[j], Of(obs, goals[j].path) + [o])
  {
    FirstOpenIsOpen(goals, obs);
    assert FirstOpen(goals, obs) == Some(goals[j]);
    var seen := Of(obs, goals[j].path);
    assert seen != [] && seen[|seen| - 1].isRead ==> seen[|seen| - 1].hash != HashOf(goals[j].content);
  }

  /** With any other writer at work, the observations of a file alternate between reads and writes. */
  lemma {:induction false} MadeAlternates(goals: seq<Goal>, obs: seq<Observation>, stores: seq<Store>, j: nat)
    requires Distinct(goals) && j < |goals| && Made(goals, obs, stores)
    ensures Alternating(goals[j], Of(obs, goals[j].path))
    decreases |obs|
  {
    if obs != [] {
      var n := |obs| - 1;
      MadePrefix(goals, obs, stores);
      MadeAlternates(goals, obs[..n], stores[..n], j);
      if obs[n].path == goals[j].path {
        MadeTruthful(goals, obs[..n], stores[..n]);
        OfTruthful(obs[..n], goals[j].path);
        AlternatesOneMore(goals, obs[..n], stores[n], obs[n], j);
      }
    }
  }

  /** As many reads as writes, and exactly one of each precisely when no later read found something else than what
      was approved. */
  ghost predicate Even(g: Goal, seen: seq<Observation>) {
    |seen| % 2 == 0 && (forall k {:trigger seen[k]} :: 0 <= k < |seen| ==> (seen[k].isRead <==> k % 2 == 0)) &&
    (|seen| == 2 <==>
      !exists k {:trigger seen[k]} :: 2 <= k < |seen| && seen[k].isRead && seen[k].hash != HashOf(g.content))
  }

  lemma HeldShape(g: Goal, seen: seq<Observation>)
    requires Alternating(g, seen) && seen != [] && !seen[|seen| - 1].isRead
    ensures Even(g, seen)
  {
    if |seen| > 2 {
      assert seen[2].isRead && seen[2].hash != HashOf(g.content);
    }
  }

  /** So a request held after a write comes after as many reads as writes, and after exactly one of each precisely
      when no later read found the file changed since the planner's own write. */
  lemma HeldUnderInterference(goals: seq<Goal>, obs: seq<Observation>, stores: seq<Store>, j: nat)
    requires Distinct(goals) && j < |goals| && Made(goals, obs, stores)
    ensures var seen := Of(obs, goals[j].path); seen != [] && !seen[|seen| - 1].isRead ==> Even(goals[j], seen)
  {
    MadeAlternates(goals, obs, stores, j);
    var seen := Of(obs, goals[j].path);
    if seen != [] && !seen[|seen| - 1].isRead {
      HeldShape(goals[j], seen);
    }
  }

  lemma OneGoalAsks(g: Goal, obs: seq<Observation>)
    ensures var seen := Of(obs, g.path);
      NextCall([g], obs) == if Met(g, obs) then None
        else if seen != [] && seen[|seen| - 1].isRead then Some(Write(g.path, g.content, seen[|seen| - 1].hash))
          else Some(Read(g.path))
  {
    var goals := [g];
    assert goals[0] == g && goals[1..] == [];
    assert FirstOpen(goals[1..], obs) == None;
    assert FirstOpen(goals, obs) == if Met(g, obs) then None else Some(g);
  }

  lemma MadeOneMore(goals: seq<Goal>, obs: seq<Observation>, stores: seq<Store>, o: Observation, store: Store)
    requires Made(goals, obs, stores)
    requires NextCall(goals, obs).Some? && Perform(store, NextCall(goals, obs).value).1 == Some(o)
    ensures Made(goals, obs + [o], stores + [store])
  {
    var all := obs + [o];
    forall k | 0 <= k < |all| ensures NextCall(goals, all[..k]).Some? &&
      Perform((stores + [store])[k], NextCall(goals, all[..k]).value).1 == Some(all[k])
    {
      if k < |obs| {
        assert all[..k] == obs[..k] && obs[k] == all[k];
      } else {
        assert all[..k] == obs;
      }
    }
  }

  /** A read of something else, then the write of the approved content. */
  lemma ReadThenWrite(g: Goal, obs: seq<Observation>, stores: seq<Store>, found: string)
    returns (obs': seq<Observation>, stores': seq<Store>)
    requires Made([g], obs, stores) && Of(obs, g.path) == obs && (obs == [] || !obs[|obs| - 1].isRead) &&
      found != g.content
    ensures Made([g], obs', stores') && Of(obs', g.path) == obs' && |obs'| == |obs| + 2 && !obs'[|obs| + 1].isRead
  {
    var store := map[g.path := found];
    var r, w := Observation(true, g.path, HashOf(found), false), Observation(false, g.path, HashOf(g.content), false);
    OneGoalAsks(g, obs);
    MadeOneMore([g], obs, stores, r, store);
    OfAppend(obs, r, g.path);
    OneGoalAsks(g, obs + [r]);
    MadeOneMore([g], obs + [r], stores + [store], w, store);
    OfAppend(obs + [r], w, g.path);
    obs', stores' := obs + [r] + [w], stores + [store] + [store];
  }

  /** The other case exists for every file: another writer between the write and the next read makes the planner read
      and write again. */
  lemma HeldTwice(g: Goal, before: string, between: string) returns (obs: seq<Observation>, stores: seq<Store>)
    requires before != g.content && between != g.content
    ensures Made([g], obs, stores) && |obs| == 4 && Of(obs, g.path) == obs && !obs[3].isRead
  {
    obs, stores := ReadThenWrite(g, [], [], before);
    obs, stores := ReadThenWrite(g, obs, stores, between);
  }

  // ------------------------------------------------------------ the closed loop, exactly

  /** One call for a file that is right already, three otherwise. */
  function Lines(g: Goal, store: Store): nat { if HashAt(store, g.path) == HashOf(g.content) then 1 else 3 }

  /** What the planner and the store do for one file: one read if it is right already, read-write-read otherwise. */
  function Script(g: Goal, store: Store): (lines: seq<Observation>)
    ensures |lines| == Lines(g, store)
  {
    var check := Observation(true, g.path, HashOf(g.content), false);
    if HashAt(store, g.path) == HashOf(g.content) then [check]
    else [Observation(true, g.path, HashAt(store, g.path), g.path !in store),
      Observation(false, g.path, HashOf(g.content), false), check]
  }

  /** The number of calls the files from `i` on still need. */
  function Cost(goals: seq<Goal>, store: Store, i: nat): nat
    requires i <= |goals|
    decreases |goals| - i
  {
    if i == |goals| then 0 else Lines(goals[i], store) + Cost(goals, store, i + 1)
  }

  function Written(store: Store, goals: seq<Goal>): Store {
    if goals == [] then store else
    var last := goals[|goals| - 1];
    Written(store, goals[..|goals| - 1])[last.path := last.content]
  }

  /** The lines of file `j`'s script that were seen when file `i` is `stage` lines in. */
  function SeenOf(goals: seq<Goal>, start: Store, i: nat, stage: nat, j: nat): seq<Observation>
    requires j < |goals|
  {
    var script := Script(goals[j], start);
    if j < i then script else if j == i && stage <= |script| then script[..stage] else []
  }

  /** Files below `i` are finished, file `i` is `stage` calls into its script, later files are untouched. */
  ghost predicate At(goals: seq<Goal>, start: Store, h: Host, i: nat, stage: nat) {
    i <= |goals| && (i < |goals| ==> stage < |Script(goals[i], start)|) && (i == |goals| ==> stage == 0) &&
    h.store == Written(start, goals[..if i < |goals| && stage == 2 then i + 1 else i]) &&
    h.measured == Approval(goals[..i]).Keys &&
    h.used == |h.obs| && h.used + Cost(goals, start, i) == Cost(goals, start, 0) + stage &&
    (forall j {:trigger goals[j]} :: 0 <= j < |goals| ==> Of(h.obs, goals[j].path) == SeenOf(goals, start, i, stage, j))
  }

  lemma {:induction false} ApprovalAt(goals: seq<Goal>, p: Path)
    ensures p in Approval(goals) ==>
      exists j :: 0 <= j < |goals| && goals[j].path == p && Approval(goals)[p] == goals[j].content
    ensures Distinct(goals) ==>
      forall j :: 0 <= j < |goals| ==>
      goals[j].path in Approval(goals) && Approval(goals)[goals[j].path] == goals[j].content
  {
    if goals != [] {
      var init := goals[..|goals| - 1];
      ApprovalAt(init, p);
      if p in Approval(init) && p != goals[|goals| - 1].path {
        var j :| 0 <= j < |init| && init[j].path == p && Approval(init)[p] == init[j].content;
        assert goals[j].path == p;
      }
      if Distinct(goals) {
        forall j | 0 <= j < |goals| ensures goals[j].path in Approval(goals) &&
          Approval(goals)[goals[j].path] == goals[j].content {
          if j < |init| { assert init[j] == goals[j]; }
        }
      }
    }
  }

  /** Writing the approval changes exactly the approved paths. */
  lemma {:induction false} WrittenAt(store: Store, goals: seq<Goal>, p: Path)
    ensures HashAt(Written(store, goals), p) == if p in Approval(goals) then HashOf(Approval(goals)[p])
      else HashAt(store, p)
  {
    if goals != [] {
      WrittenAt(store, goals[..|goals| - 1], p);
    }
  }

  lemma OfAppend(obs: seq<Observation>, o: Observation, p: Path)
    ensures Of(obs + [o], p) == Of(obs, p) + (if o.path == p then [o] else [])
  {
    assert (obs + [o])[..|obs|] == obs;
  }

  lemma {:induction false} FirstOpenSkips(goals: seq<Goal>, obs: seq<Observation>, i: nat)
    requires i < |goals| && !Met(goals[i], obs) && forall j :: 0 <= j < i ==> Met(goals[j], obs)
    ensures FirstOpen(goals, obs) == Some(goals[i])
  {
    if i > 0 {
      assert Met(goals[0], obs);
      FirstOpenSkips(goals[1..], obs, i - 1);
    }
  }

  /** At any point of the closed loop the planner asks for the next line of the script of the first unfinished file. */
  lemma AsksForScript(goals: seq<Goal>, start: Store, h: Host, i: nat, stage: nat)
    requires At(goals, start, h, i, stage) && i < |goals|
    ensures NextCall(goals, h.obs) == Some(
      if stage == 1 then Write(goals[i].path, goals[i].content, HashAt(start, goals[i].path)) else Read(goals[i].path))
  {
    forall j | 0 <= j < i ensures Met(goals[j], h.obs) {
      assert Of(h.obs, goals[j].path) == Script(goals[j], start);
    }
    assert Of(h.obs, goals[i].path) == Script(goals[i], start)[..stage];
    FirstOpenSkips(goals, h.obs, i);
  }

  /** A later path is not among the earlier ones. */
  lemma NotYet(goals: seq<Goal>, i: nat, store: Store)
    requires Distinct(goals) && i < |goals|
    ensures goals[i].path !in Approval(goals[..i])
    ensures Approval(goals[..i + 1]) == Approval(goals[..i])[goals[i].path := goals[i].content]
    ensures Written(store, goals[..i + 1]) == Written(store, goals[..i])[goals[i].path := goals[i].content]
  {
    ApprovalAt(goals[..i], goals[i].path);
    assert goals[..i + 1][..i] == goals[..i];
  }

  /** The store shows the planner exactly the next line of the script. */
  lemma AnswersScript(goals: seq<Goal>, start: Store, h: Host, i: nat, stage: nat)
    requires Distinct(goals) && At(goals, start, h, i, stage) && i < |goals|
    ensures var call := if stage == 1 then Write(goals[i].path, goals[i].content, HashAt(start, goals[i].path))
      else Read(goals[i].path);
      Perform(h.store, call).1 == Some(Script(goals[i], start)[stage]) &&
      Perform(h.store, call).0 == (if stage == 1 then Written(start, goals[..i + 1]) else h.store)
  {
    NotYet(goals, i, start);
    WrittenAt(start, goals[..i], goals[i].path);
    WrittenAt(start, goals[..i + 1], goals[i].path);
  }

  ghost function Synthetic(goals: seq<Goal>, check: nat -> bool, maxCalls: nat): Rules {
    Rules(Approval(goals), obs => NextCall(goals, obs), check, maxCalls)
  }

  /** The position after one more call. */
  function NextAt(goals: seq<Goal>, start: Store, i: nat, stage: nat): (nat, nat)
    requires i < |goals|
  {
    if stage + 1 == |Script(goals[i], start)| then (i + 1, 0) else (i, stage + 1)
  }

  lemma SeenAdvances(goals: seq<Goal>, start: Store, i: nat, stage: nat, j: nat)
    requires Distinct(goals) && i < |goals| && j < |goals| && stage < |Script(goals[i], start)|
    ensures var (i', stage') := NextAt(goals, start, i, stage);
      var line := Script(goals[i], start)[stage];
      SeenOf(goals, start, i', stage', j) == SeenOf(goals, start, i, stage, j) +
        (if line.path == goals[j].path then [line] else [])
  {
    if j == i {
      var script := Script(goals[i], start);
      assert script[..stage] + [script[stage]] == script[..stage + 1];
      assert stage + 1 == |script| ==> script[..stage + 1] == script;
    }
  }

  lemma {:induction false} ApprovalMonotone(goals: seq<Goal>, i: nat)
    requires Distinct(goals) && i <= |goals|
    ensures Approval(goals[..i]).Keys <= Approval(goals).Keys
    ensures Approval(goals).Keys <= Approval(goals[..i]).Keys <==> i == |goals|
    decreases |goals| - i
  {
    if i == |goals| {
      assert goals[..i] == goals;
    } else {
      NotYet(goals, i, map[]);
      ApprovalMonotone(goals, i + 1);
    }
  }

  lemma StoreAdvances(goals: seq<Goal>, start: Store, h: Host, i: nat, stage: nat)
    requires Distinct(goals) && At(goals, start, h, i, stage) && i < |goals|
    ensures var (i', stage') := NextAt(goals, start, i, stage);
      Written(start, goals[..if i' < |goals| && stage' == 2 then i' + 1 else i']) ==
        (if stage == 1 then Written(start, goals[..i + 1]) else h.store)
  {
    if |Script(goals[i], start)| == 1 {
      AlreadyRight(goals, start, i);
    }
  }

  lemma AlreadyRight(goals: seq<Goal>, start: Store, i: nat)
    requires Distinct(goals) && i < |goals| && HashAt(start, goals[i].path) == HashOf(goals[i].content)
    ensures Written(start, goals[..i + 1]) == Written(start, goals[..i])
  {
    NotYet(goals, i, start);
    WrittenAt(start, goals[..i], goals[i].path);
    var store := Written(start, goals[..i]);
    assert store[goals[i].path := goals[i].content] == store;
  }

  lemma MeasuredAdvances(goals: seq<Goal>, start: Store, check: nat -> bool, maxCalls: nat, h: Host, i: nat, stage: nat)
    requires Distinct(goals) && At(goals, start, h, i, stage) && i < |goals|
    ensures var (i', stage') := NextAt(goals, start, i, stage);
      var line := Script(goals[i], start)[stage];
      (h.measured - {goals[i].path}) + (if Measures(Synthetic(goals, check, maxCalls), line) then {goals[i].path}
        else {}) == Approval(goals[..i']).Keys
  {
    NotYet(goals, i, start);
    ApprovalAt(goals, goals[i].path);
  }

  lemma RequestExact(goals: seq<Goal>, start: Store, check: nat -> bool, maxCalls: nat, step: nat, h: Host, i: nat,
    stage: nat)
    requires Distinct(goals) && At(goals, start, h, i, stage) && i < |goals| && check(step) && h.used < maxCalls
    ensures var (i', stage') := NextAt(goals, start, i, stage);
      Request(Synthetic(goals, check, maxCalls), step, h) == Report(
        if i' == |goals| then Submitted else ModelLimit,
        Host(Written(start, goals[..if i' < |goals| && stage' == 2 then i' + 1 else i']),
          h.obs + [Script(goals[i], start)[stage]],
             Approval(goals[..i']).Keys, h.used + 1))
  {
    AsksForScript(goals, start, h, i, stage);
    AnswersScript(goals, start, h, i, stage);
    ApprovalAt(goals, goals[i].path);
    StoreAdvances(goals, start, h, i, stage);
    MeasuredAdvances(goals, start, check, maxCalls, h, i, stage);
    ApprovalMonotone(goals, NextAt(goals, start, i, stage).0);
  }

  /** One request moves the closed loop one line forward and submits exactly after the last line. */
  lemma RequestAdvances(goals: seq<Goal>, start: Store, check: nat -> bool, maxCalls: nat, step: nat, h: Host,
    i: nat, stage: nat)
    requires Distinct(goals) && At(goals, start, h, i, stage) && i < |goals| && check(step) && h.used < maxCalls
    ensures var out := Request(Synthetic(goals, check, maxCalls), step, h);
      var (i', stage') := NextAt(goals, start, i, stage);
      At(goals, start, out.host, i', stage') && out.host.used == h.used + 1 &&
      out.ending == (if i' == |goals| then Submitted else ModelLimit)
  {
    RequestExact(goals, start, check, maxCalls, step, h, i, stage);
    var (i', stage') := NextAt(goals, start, i, stage);
    var line := Script(goals[i], start)[stage];
    forall j | 0 <= j < |goals| ensures Of(h.obs + [line], goals[j].path) == SeenOf(goals, start, i', stage', j) {
      OfAppend(h.obs, line, goals[j].path);
      SeenAdvances(goals, start, i, stage, j);
    }
  }

  function Min(a: nat, b: nat): nat { if a <= b then a else b }

  /** With `rest` calls to go, one request makes one of them or reports why it may not. */
  ghost predicate Driven(out: Report, at: (Host, nat) -> bool, allowed: bool, maxCalls: nat, h: Host, rest: nat)
    requires rest > 0
  {
    if !allowed then out == Report(Cancelled, h)
    else if h.used >= maxCalls then out == Report(BudgetExhausted, h)
    else (
      at(out.host, rest - 1) && out.host.used == h.used + 1 &&
      out.ending == (if rest == 1 then Submitted else ModelLimit))
  }

  ghost predicate Drives(request: (nat, Host) -> Report, at: (Host, nat) -> bool, check: nat -> bool, maxCalls: nat) {
    forall step: nat, h: Host, rest: nat {:trigger request(step, h), at(h, rest)} ::
      at(h, rest) && rest > 0 ==> Driven(request(step, h), at, check(step), maxCalls, h, rest)
  }

  /** Such a loop makes exactly as many calls as are needed or as it has room for, and submits exactly when the room
      suffices. `run` is the number of steps the authority check allows. */
  lemma {:induction false} IterateExact(request: (nat, Host) -> Report, at: (Host, nat) -> bool, check: nat -> bool,
    maxCalls: nat,
                                        step: nat, left: nat, run: nat, h: Host, rest: nat)
    requires Drives(request, at, check, maxCalls) && at(h, rest) && rest > 0 && h.used <= maxCalls
    requires run <= left && (forall j :: step <= j < step + run ==> check(j)) && (run < left ==> !check(step + run))
    ensures var out := Iterate(request, step, left, h);
      var room := Min(run, maxCalls - h.used);
      at(out.host, rest - Min(rest, room)) && out.host.used == h.used + Min(rest, room) &&
      out.ending == (if rest <= room then Submitted
                     else if maxCalls - h.used < run then BudgetExhausted else if run < left then Cancelled
                       else ModelLimit)
    decreases left
  {
    if left > 0 {
      var now := request(step, h);
      if run > 0 && h.used < maxCalls && rest > 1 {
        IterateExact(request, at, check, maxCalls, step + 1, left - 1, run - 1, now.host, rest - 1);
      }
    }
  }

  /** The closed loop stands somewhere in the scripts with `rest` calls to go. */
  ghost function Position(goals: seq<Goal>, start: Store): (Host, nat) -> bool {
    (h: Host, rest: nat) =>
      exists i: nat, stage: nat :: At(goals, start, h, i, stage) && rest + stage == Cost(goals, start, i)
  }

  lemma SyntheticDrives(goals: seq<Goal>, start: Store, check: nat -> bool, maxCalls: nat)
    requires Distinct(goals)
    ensures Drives(Requests(Synthetic(goals, check, maxCalls)), Position(goals, start), check, maxCalls)
  {
    var at, request := Position(goals, start), Requests(Synthetic(goals, check, maxCalls));
    forall step: nat, h: Host, rest: nat | at(h, rest) && rest > 0
      ensures Driven(request(step, h), at, check(step), maxCalls, h, rest)
    {
      SyntheticDriven(goals, start, check, maxCalls, step, h, rest);
    }
  }

  lemma SyntheticDriven(goals: seq<Goal>, start: Store, check: nat -> bool, maxCalls: nat, step: nat, h: Host,
    rest: nat)
    requires Distinct(goals) && Position(goals, start)(h, rest) && rest > 0
    ensures Driven(Request(Synthetic(goals, check, maxCalls), step, h), Position(goals, start), check(step),
      maxCalls, h, rest)
  {
    if check(step) && h.used < maxCalls {
      var i: nat, stage: nat :| At(goals, start, h, i, stage) && rest + stage == Cost(goals, start, i);
      DrivesOnce(goals, start, check, maxCalls, step, h, i, stage, rest);
    }
  }

  lemma DrivesOnce(goals: seq<Goal>, start: Store, check: nat -> bool, maxCalls: nat, step: nat, h: Host, i: nat,
    stage: nat, rest: nat)
    requires Distinct(goals) && At(goals, start, h, i, stage) && rest + stage == Cost(goals, start, i) && rest > 0 &&
      check(step) && h.used < maxCalls
    ensures var out := Request(Synthetic(goals, check, maxCalls), step, h);
      Position(goals, start)(out.host, rest - 1) && out.host.used == h.used + 1 &&
        out.ending == (if rest == 1 then Submitted else ModelLimit)
  {
    assert i < |goals|;
    RequestAdvances(goals, start, check, maxCalls, step, h, i, stage);
    var (i', stage') := NextAt(goals, start, i, stage);
    CostBounds(goals, start, i');
    assert rest - 1 + stage' == Cost(goals, start, i');
  }

  lemma Beginning(goals: seq<Goal>, store: Store)
    ensures goals != [] ==>
      At(goals, store, Host(store, [], {}, 0), 0, 0) && Position(goals, store)(Host(store, [], {}, 0),
      Cost(goals, store, 0))
  {
    assert goals[..0] == [];
  }

  /** One to three calls per file. */
  lemma {:induction false} CostBounds(goals: seq<Goal>, store: Store, i: nat)
    requires i <= |goals|
    ensures |goals| - i <= Cost(goals, store, i) <= 3 * (|goals| - i)
    decreases |goals| - i
  {
    if i < |goals| {
      CostBounds(goals, store, i + 1);
    }
  }

  lemma {:induction false} RunExact(goals: seq<Goal>, store: Store, check: nat -> bool, maxCalls: nat, left: nat,
    run: nat) returns (i: nat, stage: nat)
    requires goals != [] && Distinct(goals) && run <= left && (forall j :: 0 <= j < run ==> check(j)) &&
      (run < left ==> !check(run))
    ensures var out, cost, room := Loop(Synthetic(goals, check, maxCalls), left, store), Cost(goals, store, 0),
      Min(run, maxCalls);
      At(goals, store, out.host, i, stage) && Cost(goals, store, i) - stage == cost - Min(cost, room) &&
        out.host.used == Min(cost, room) &&
      out.ending == (if cost <= room then Submitted else if maxCalls < run then BudgetExhausted
        else if run < left then Cancelled else ModelLimit)
  {
    Beginning(goals, store);
    SyntheticDrives(goals, store, check, maxCalls);
    CostBounds(goals, store, 0);
    var request, at := Requests(Synthetic(goals, check, maxCalls)), Position(goals, store);
    IterateExact(request, at, check, maxCalls, 0, left, run, Host(store, [], {}, 0), Cost(goals, store, 0));
    var out := Iterate(request, 0, left, Host(store, [], {}, 0));
    var rest := Cost(goals, store, 0) - Min(Cost(goals, store, 0), Min(run, maxCalls));
    assert at(out.host, rest);
    i, stage :| At(goals, store, out.host, i, stage) && rest + stage == Cost(goals, store, i);
  }

  /** For any approved list with distinct paths and any store: the loop submits exactly when both limits cover one
      call per file already correct and three per other file; it then used exactly that many calls, and the store is
      the initial one with the approval written over it: every approved file holds its approved content and no other
      path is touched. */
  lemma ClosedLoop(goals: seq<Goal>, store: Store, check: nat -> bool, maxCalls: nat, maxRequests: nat)
    requires goals != [] && Distinct(goals) && forall j :: check(j)
    ensures var out, cost := Loop(Synthetic(goals, check, maxCalls), maxRequests, store), Cost(goals, store, 0);
      (out.ending.Submitted? <==> cost <= Min(maxRequests, maxCalls)) &&
      out.host.used == Min(cost, Min(maxRequests, maxCalls)) &&
      (out.ending.Submitted? ==> out.host.store == Written(store, goals))
  {
    var i, stage := RunExact(goals, store, check, maxCalls, maxRequests, maxRequests);
    if Cost(goals, store, 0) <= Min(maxRequests, maxCalls) {
      Finished(goals, store, Loop(Synthetic(goals, check, maxCalls), maxRequests, store).host, i, stage);
    }
  }

  lemma Finished(goals: seq<Goal>, store: Store, h: Host, i: nat, stage: nat)
    requires At(goals, store, h, i, stage) && Cost(goals, store, i) == stage
    ensures h.store == Written(store, goals)
  {
    assert i == |goals|;
    assert goals[..i] == goals;
  }

  /** Whenever the planner is asked about a file whose latest observation is a write, exactly one read and one write
      of it were made. */
  lemma HeldRequest(goals: seq<Goal>, start: Store, h: Host, i: nat, stage: nat, j: nat)
    requires At(goals, start, h, i, stage) && j < |goals|
    ensures var seen := Of(h.obs, goals[j].path);
      seen != [] && !seen[|seen| - 1].isRead ==>
        j == i && |seen| == 2 && seen[0].isRead && seen[0].hash == HashAt(start, goals[j].path) &&
          seen[1].hash == HashOf(goals[j].content)
  {
    assert Of(h.obs, goals[j].path) == SeenOf(goals, start, i, stage, j);
  }

  /** The files among the first `n` that need writing. */
  function Repairs(goals: seq<Goal>, store: Store, n: nat): nat
    requires n <= |goals|
  {
    if n == 0 then 0 else Repairs(goals, store, n - 1) + (if Lines(goals[n - 1], store) == 3 then 1 else 0)
  }

  lemma LinesAfter(goals: seq<Goal>, store: Store, n: nat, i: nat)
    requires Distinct(goals) && n <= |goals| && i < |goals|
    ensures Lines(goals[i], Written(store, goals[..n])) == if i < n then 1 else Lines(goals[i], store)
  {
    WrittenAt(store, goals[..n], goals[i].path);
    ApprovalAt(goals[..n], goals[i].path);
    if i < n {
      assert goals[..n][i] == goals[i];
    }
  }

  /** When the first `n` files cost one call and the others what they did before, every repair made saves two calls. */
  lemma {:induction false} CostAfter(goals: seq<Goal>, store: Store, after: Store, n: nat, i: nat)
    requires n <= |goals| && i <= |goals|
    requires forall j :: 0 <= j < |goals| ==> Lines(goals[j], after) == if j < n then 1 else Lines(goals[j], store)
    ensures Cost(goals, after, i) + 2 * Repairs(goals, store, n) ==
      Cost(goals, store, i) + 2 * Repairs(goals, store, Min(i, n))
    decreases |goals| - i
  {
    if i < |goals| {
      CostAfter(goals, store, after, n, i + 1);
      assert Lines(goals[i], after) == if i < n then 1 else Lines(goals[i], store);
    }
  }

  /** Stop a run after any number of calls and start again on what it left: every write already made saves two calls. */
  lemma StopAndRerun(goals: seq<Goal>, store: Store, check: nat -> bool, maxCalls: nat, maxRequests: nat,
    run: nat) returns (writes: nat)
    requires goals != [] && Distinct(goals) && run < maxRequests && run <= maxCalls && run < Cost(goals, store, 0)
    requires (forall j :: 0 <= j < run ==> check(j)) && !check(run)
    ensures var out := Loop(Synthetic(goals, check, maxCalls), maxRequests, store);
      out.ending.Cancelled? && out.host.used == run && writes <= |goals| &&
      out.host.store == Written(store, goals[..writes]) &&
      Cost(goals, out.host.store, 0) + 2 * Repairs(goals, store, writes) == Cost(goals, store, 0)
  {
    var i, stage := RunExact(goals, store, check, maxCalls, maxRequests, run);
    writes := if i < |goals| && stage == 2 then i + 1 else i;
    var after := Written(store, goals[..writes]);
    forall j | 0 <= j < |goals| ensures Lines(goals[j], after) == if j < writes then 1 else Lines(goals[j], store) {
      LinesAfter(goals, store, writes, j);
    }
    CostAfter(goals, store, after, writes, 0);
  }

  /** One file to repair, stopped while the request after its write is held, then run again: two calls, then one. */
  lemma HeldThenRerun(g: Goal, store: Store, check: nat -> bool, maxCalls: nat, maxRequests: nat)
    requires HashAt(store, g.path) != HashOf(g.content) && maxCalls >= 3 && maxRequests >= 3
    requires check(0) && check(1) && !check(2)
    ensures var out := Loop(Synthetic([g], check, maxCalls), maxRequests, store);
      out.ending.Cancelled? && out.host.used == 2 && HashAt(out.host.store, g.path) == HashOf(g.content) &&
        Cost([g], out.host.store, 0) == 1
  {
    var goals := [g];
    assert Cost(goals, store, 0) == 3 by { assert Cost(goals, store, 1) == 0; }
    var i, stage := RunExact(goals, store, check, maxCalls, maxRequests, 2);
    assert i == 0 && stage == 2;
    assert goals[..1] == goals;
    LinesAfter(goals, store, 1, 0);
    assert Cost(goals, Written(store, goals), 1) == 0;
  }
}
