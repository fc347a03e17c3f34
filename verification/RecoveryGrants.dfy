/**
 * How long a recovered device may write: its grant runs for thirty days from the recovery that admitted it, and ends at
 * once when the next recovery commits. Event `k` of a run is judged in the state the `k` events before it lead to.
 */
module RecoveryGrants {
  import opened Common
  import opened Recovery

  ghost function At(start: World, events: seq<Event>, k: nat): World
    requires k <= |events|
  {
    Execute(start, events[..k])
  }

  lemma {:induction false} ExecuteSnoc(w: World, events: seq<Event>, e: Event)
    ensures Execute(w, events + [e]) == Step(Execute(w, events), e)
    decreases |events|
  {
    if events == [] {
      assert ([] + [e])[1..] == [];
      assert Execute(Step(w, e), []) == Step(w, e);
    } else {
      assert (events + [e])[1..] == events[1..] + [e];
      ExecuteSnoc(Step(w, events[0]), events[1..], e);
    }
  }

  lemma Last(start: World, events: seq<Event>)
    requires events != []
    ensures At(start, events, |events|) == Step(At(start, events, |events| - 1), events[|events| - 1])
  {
    var n := |events| - 1;
    assert events[..n] + [events[n]] == events[..n + 1];
    ExecuteSnoc(start, events[..n], events[n]);
  }

  /** Event `k` is the recovery that admitted device `g`. */
  ghost predicate Admits(start: World, events: seq<Event>, k: nat, g: nat) {
    k < |events| && events[k].Submit? && Apply(At(start, events, k), events[k]).Done? &&
    |At(start, events, k).devices| == g
  }

  /** Devices are only ever added, one by each committed recovery. */
  lemma StepDevices(w: World, e: Event)
    ensures var w' := Step(w, e);
      if e.Submit? && Apply(w, e).Done?
      then |w'.devices| == |w.devices| + 1 && w'.devices[..|w.devices|] == w.devices &&
        w'.generation == w.generation + 1 && e.index < |w.prepared| &&
        w'.devices[|w.devices|].address == w.prepared[e.index].device &&
        w'.devices[|w.devices|].generation == w.generation + 1 &&
        w'.devices[|w.devices|].expires == e.now + 30 * 24 * 60 * 60 * 1000
      else w'.devices == w.devices && w'.generation == w.generation
  {
  }

  /** Device `g` was admitted by generation `g + 1`; the last one belongs to the present generation. */
  ghost predicate Numbered(w: World) {
    w.generation == |w.devices| && forall g :: 0 <= g < |w.devices| ==> w.devices[g].generation == g + 1
  }

  lemma {:induction false} ExecuteNumbered(w: World, events: seq<Event>)
    requires Numbered(w)
    ensures Numbered(Execute(w, events))
    decreases |events|
  {
    if events != [] {
      StepDevices(w, events[0]);
      var w' := Step(w, events[0]);
      forall g | 0 <= g < |w'.devices| ensures w'.devices[g].generation == g + 1 {
        if g < |w.devices| { assert w'.devices[..|w.devices|][g] == w.devices[g]; }
      }
      ExecuteNumbered(w', events[1..]);
    }
  }

  /** In every run, a device beyond those of the start was admitted by one recovery, and its grant runs for thirty days
      from then. */
  lemma {:induction false} GrantedBy(start: World, events: seq<Event>, g: nat) returns (k: nat)
    requires |start.devices| <= g < |Execute(start, events).devices|
    ensures Admits(start, events, k, g)
    ensures var device, prepared := Execute(start, events).devices[g], At(start, events, k).prepared;
      events[k].index < |prepared| && device.address == prepared[events[k].index].device &&
      device.expires == events[k].now + 30 * 24 * 60 * 60 * 1000
    decreases |events|
  {
    assert events[..|events|] == events;
    if events == [] {
      assert false;
    } else {
      var n := |events| - 1;
      Last(start, events);
      StepDevices(At(start, events, n), events[n]);
      var before, after := At(start, events, n).devices, At(start, events, n + 1).devices;
      if g < |before| {
        assert after[..|before|][g] == before[g];
        k := GrantedBy(start, events[..n], g);
        assert events[..n][..k] == events[..k];
      } else {
        k := n;
      }
    }
  }

  /** A save commits exactly for a device of the present generation whose grant has not run out, and appends one record
      under the present key. */
  lemma SaveExactly(w: World, g: nat, now: nat)
    requires Inv(w)
    ensures Apply(w, Save(g, now)).Done? <==>
      g < |w.devices| && w.devices[g].generation == w.generation && now < w.devices[g].expires
    ensures Apply(w, Save(g, now)).Done? ==>
      w.keyVersion in Master(w).keys &&
      Step(w, Save(g, now)) == w.(records := w.records + [Record(w.keyVersion, Master(w).keys[w.keyVersion])])
  {
    if g < |w.devices| && w.devices[g].generation == w.generation {
      assert Earlier(w.devices[g].ring, Master(w));
      EarlierSame(w.devices[g].ring, Master(w));
    }
  }

  /** A recovery can be prepared exactly with the very code of a backup whose keyring is the present one, while fewer
      than 256 keys exist; it is kept as asked, for the present key version, and touches nothing else. */
  lemma PrepareExactly(w: World, source: nat, code: nat, next: nat, device: nat)
    requires Inv(w)
    ensures var out := Apply(w, Prepare(source, code, next, device));
      (out.Done? <==>
        source < |w.backups| && w.backups[source].code == code && w.backups[source].ring == Master(w) &&
        w.keyVersion < 256) &&
      (out.Done? ==> (
        var p := out.state.prepared;
        |p| == |w.prepared| + 1 && p[..|w.prepared|] == w.prepared && p[|w.prepared|].source == source &&
        p[|w.prepared|].next == next && p[|w.prepared|].device == device &&
        p[|w.prepared|].expectedKey == w.keyVersion && out.state == w.(prepared := p, nextKey := w.nextKey + 1)))
  {
    RingSize(Master(w));
    if source < |w.backups| && w.backups[source].ring.current == w.keyVersion {
      assert Earlier(w.backups[source].ring, Master(w));
      EarlierSame(w.backups[source].ring, Master(w));
    }
  }

  /** A prepared recovery is accepted exactly while nothing was recovered or replaced since it was prepared, with a code
      nobody has used and a device that is not a code. */
  lemma SubmitExactly(w: World, i: nat, now: nat)
    requires Inv(w) && i < |w.prepared|
    ensures var p := w.prepared[i];
      Apply(w, Submit(i, now)).Done? <==> (
        p.source == |w.backups| - 1 && p.expectedKey == w.keyVersion && p.next !in w.usedCodes &&
        p.next !in w.usedDevices && p.device !in w.usedCodes && p.device != p.next)
  {
  }

  /** A code is replaced exactly by such a device, with a code nobody has used. */
  lemma ReplaceExactly(w: World, g: nat, next: nat, now: nat)
    requires Inv(w)
    ensures Apply(w, ReplaceCode(g, next, now)).Done? <==> (
      g < |w.devices| && w.devices[g].generation == w.generation && now < w.devices[g].expires &&
      next !in w.usedCodes && next !in w.usedDevices)
  {
  }

  /** After any run of a created identity: only the newest device can write, and only until thirty days after the
      identity was created or recovered for it. */
  lemma OnlyTheNewestDeviceWrites(code: nat, device: nat, now: nat, events: seq<Event>, g: nat, time: nat)
    returns (granted: nat, k: nat)
    ensures var start := Created(code, device, now);
      var w := Execute(start, events);
      (Apply(w, Save(g, time)).Done? <==> g == |w.devices| - 1 && time < granted + 30 * 24 * 60 * 60 * 1000) &&
      (g == 0 ==> granted == now) &&
      (0 < g < |w.devices| ==> Admits(start, events, k, g) && granted == events[k].now)
  {
    var start := Created(code, device, now);
    var w := Execute(start, events);
    CreatedInv(code, device, now);
    ExecuteKeeps(start, events);
    ExecuteNumbered(start, events);
    SaveExactly(w, g, time);
    granted, k := now, 0;
    FirstDevice(start, events);
    if 0 < g < |w.devices| {
      k := GrantedBy(start, events, g);
      granted := events[k].now;
    }
  }

  lemma {:induction false} FirstDevice(w: World, events: seq<Event>)
    requires w.devices != []
    ensures Execute(w, events).devices != [] && Execute(w, events).devices[0] == w.devices[0]
    decreases |events|
  {
    if events != [] {
      StepDevices(w, events[0]);
      assert Step(w, events[0]).devices[..|w.devices|][0] == w.devices[0];
      FirstDevice(Step(w, events[0]), events[1..]);
    }
  }
}
