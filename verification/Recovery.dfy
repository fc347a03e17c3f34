/**
 * Repeated identity recovery with organization key rotation.
 *
 * Keys are abstract values; fresh randomness is the counter `nextKey`. A recovery code is
 * identified with the address derived from it. Preparing a recovery happens on a device and
 * may be arbitrarily older than its submission, so prepared recoveries are kept as a list and
 * may be submitted in any order, several times or never.
 */
module Recovery {
  import opened Common

  type Key = nat

  /** The keyring of one organization: every historical key by version. */
  datatype Ring = Ring(current: nat, keys: map<nat, Key>)
  datatype Backup = Backup(code: nat, version: nat, active: bool, ring: Ring)
  datatype Device = Device(address: nat, generation: nat, expires: nat, ring: Ring)
  datatype Prepared = Prepared(source: nat, expectedKey: nat, key: Key, next: nat, device: nat, ring: Ring)
  datatype Record = Record(keyVersion: nat, key: Key)
  datatype World = World(
    generation: nat, recoveryVersion: nat, backups: seq<Backup>, devices: seq<Device>,
    usedCodes: set<nat>, usedDevices: set<nat>,
    keyVersion: nat, records: seq<Record>, prepared: seq<Prepared>, nextKey: Key)

  const MAX_KEYS := 256
  const GRANT_MS := 30 * 86400000

  datatype Event =
    | Prepare(source: nat, code: nat, next: nat, device: nat)
    | Submit(index: nat, now: nat)
    | ReplaceCode(grant: nat, next: nat, now: nat)
    | Save(grant: nat, now: nat)

  /** A new identity with one organization, one code and one device. */
  function Created(code: nat, device: nat, now: nat): World {
    var ring := Ring(1, map[1 := 0]);
    World(1, 1, [Backup(code, 1, true, ring)], [Device(device, 1, now + GRANT_MS, ring)], {code}, {device}, 1, [],
      [], 1)
  }

  /** Rotate a keyring for the chain's key version: a stale backup, a known next version or a full ring is refused. */
  function Rotate(ring: Ring, version: nat, entropy: Key): Option<Ring> {
    if ring.current != version || version + 1 in ring.keys || |ring.keys| + 1 > MAX_KEYS then None
    else Some(Ring(version + 1, ring.keys[version + 1 := entropy]))
  }

  function DoPrepare(w: World, source: nat, code: nat, next: nat, device: nat): Commit<World> {
    // Only the code itself opens its backup.
    if source >= |w.backups| || w.backups[source].code != code then Abort else
    match Rotate(w.backups[source].ring, w.keyVersion, w.nextKey)
    case None => Abort
    case Some(ring) => Done(w.(prepared := w.prepared + [Prepared(source, w.keyVersion, w.nextKey, next, device,
      ring)], nextKey := w.nextKey + 1))
  }

  predicate CurrentBackup(w: World, b: nat) {
    b < |w.backups| && b == |w.backups| - 1 && w.backups[b].active && w.backups[b].version == w.recoveryVersion
  }

  /** Retire the current backup and store the next one under the next recovery version. */
  function RotateRecovery(w: World, next: nat, ring: Ring): World
    requires w.backups != []
  {
    var b := |w.backups| - 1;
    w.(recoveryVersion := w.recoveryVersion + 1, usedCodes := w.usedCodes + {next},
       backups := w.backups[b := w.backups[b].(active := false)] + [Backup(next, w.recoveryVersion + 1, true, ring)])
  }

  /** One transaction: rotate the organization key, consume the code and admit the new device. */
  function DoSubmit(w: World, i: nat, now: nat): Commit<World> {
    if i >= |w.prepared| then Abort else
    var p := w.prepared[i];
    if !CurrentBackup(w, p.source) || p.expectedKey != w.keyVersion then Abort else
    if p.next in w.usedCodes || p.next in w.usedDevices then Abort else
    if p.device in w.usedCodes + {p.next} then Abort else
    var w' := RotateRecovery(w, p.next, p.ring);
    Done(w'.(generation := w.generation + 1, keyVersion := w.keyVersion + 1, usedDevices := w.usedDevices + {p.device},
             devices := w.devices + [Device(p.device, w.generation + 1, now + GRANT_MS, p.ring)]))
  }

  predicate DeviceCurrent(w: World, g: nat, now: nat) {
    g < |w.devices| && w.devices[g].generation == w.generation && now < w.devices[g].expires
  }

  function DoReplaceCode(w: World, g: nat, next: nat, now: nat): Commit<World> {
    if !DeviceCurrent(w, g, now) || w.backups == [] || !CurrentBackup(w, |w.backups| - 1) then Abort else
    if next in w.usedCodes || next in w.usedDevices then Abort else
    Done(RotateRecovery(w, next, w.devices[g].ring))
  }

  function DoSave(w: World, g: nat, now: nat): Commit<World> {
    if !DeviceCurrent(w, g, now) then Abort else
    var ring := w.devices[g].ring;
    if ring.current != w.keyVersion || ring.current !in ring.keys then Abort else
    Done(w.(records := w.records + [Record(ring.current, ring.keys[ring.current])]))
  }

  function Apply(w: World, e: Event): Commit<World> {
    match e
    case Prepare(source, code, next, device) => DoPrepare(w, source, code, next, device)
    case Submit(i, now) => DoSubmit(w, i, now)
    case ReplaceCode(g, next, now) => DoReplaceCode(w, g, next, now)
    case Save(g, now) => DoSave(w, g, now)
  }

  function Step(w: World, e: Event): World {
    match Apply(w, e)
    case Done(w') => w'
    case Abort => w
  }

  function Execute(w: World, events: seq<Event>): World
    decreases |events|
  {
    if events == [] then w else Execute(Step(w, events[0]), events[1..])
  }

  /** How many recoveries, and how many code replacements, committed along a run. */
  function Recoveries(w: World, events: seq<Event>): nat
    decreases |events|
  {
    if events == [] then 0
    else (if events[0].Submit? && Apply(w, events[0]).Done? then 1 else 0) + Recoveries(Step(w, events[0]), events[1..])
  }

  function Replacements(w: World, events: seq<Event>): nat
    decreases |events|
  {
    if events == [] then 0 else
    var replaced := events[0].ReplaceCode? && Apply(w, events[0]).Done?;
    (if replaced then 1 else 0) + Replacements(Step(w, events[0]), events[1..])
  }

  // -------------------------------------------------------------- keyrings

  /** Opening looks the version up; holding is the stronger power to try every key. */
  predicate Opens(ring: Ring, r: Record) { r.keyVersion in ring.keys && ring.keys[r.keyVersion] == r.key }
  ghost predicate Holds(ring: Ring, k: Key) { exists v :: v in ring.keys && ring.keys[v] == k }

  /** Exactly the versions 1..current, with distinct keys. */
  ghost predicate Complete(ring: Ring) {
    ring.current >= 1 &&
    (forall v :: v in ring.keys <==> 1 <= v <= ring.current) &&
    (forall u, v :: u in ring.keys && v in ring.keys && ring.keys[u] == ring.keys[v] ==> u == v)
  }

  /** `base` is an earlier stage of `ring`. */
  ghost predicate Earlier(base: Ring, ring: Ring) {
    Complete(base) && base.current <= ring.current && forall v :: v in base.keys ==>
      v in ring.keys && ring.keys[v] == base.keys[v]
  }

  ghost function Master(w: World): Ring
    requires w.backups != []
  {
    w.backups[|w.backups| - 1].ring
  }

  /** A prepared recovery that can still be submitted extends the present keyring by a key nobody holds. */
  ghost predicate PreparedInv(w: World, p: Prepared)
    requires w.backups != []
  {
    p.expectedKey <= w.keyVersion && p.source < |w.backups| &&
    (p.expectedKey == w.keyVersion ==>
      p.key < w.nextKey && !Holds(Master(w), p.key) && Rotate(Master(w), w.keyVersion, p.key) == Some(p.ring))
  }

  ghost predicate BackupsInv(backups: seq<Backup>, codes: set<nat>, master: Ring) {
    (forall b :: 0 <= b < |backups| ==>
      Earlier(backups[b].ring, master) && backups[b].code in codes && (backups[b].active <==> b == |backups| - 1)) &&
    (forall a, b :: 0 <= a < b < |backups| ==> backups[a].code != backups[b].code)
  }

  ghost predicate DevicesInv(devices: seq<Device>, addresses: set<nat>, master: Ring) {
    forall g :: 0 <= g < |devices| ==>
      Earlier(devices[g].ring, master) && devices[g].generation == devices[g].ring.current &&
        devices[g].address in addresses
  }

  ghost predicate Inv(w: World) {
    w.backups != [] &&
    Complete(Master(w)) && Master(w).current == w.keyVersion == w.generation <= MAX_KEYS &&
    (forall v :: v in Master(w).keys ==> Master(w).keys[v] < w.nextKey) &&
    BackupsInv(w.backups, w.usedCodes, Master(w)) && w.backups[|w.backups| - 1].version == w.recoveryVersion &&
    DevicesInv(w.devices, w.usedDevices, Master(w)) &&
    (forall r :: 0 <= r < |w.records| ==> Opens(Master(w), w.records[r])) &&
    (forall i :: 0 <= i < |w.prepared| ==> PreparedInv(w, w.prepared[i]))
  }

  lemma CreatedInv(code: nat, device: nat, now: nat)
    ensures Inv(Created(code, device, now))
  {
  }

  lemma {:induction false} CardinalityUpTo(s: set<nat>, n: nat)
    requires forall v :: v in s <==> 1 <= v <= n
    ensures |s| == n
  {
    if n > 0 {
      CardinalityUpTo(s - {n}, n - 1);
    } else {
      assert s == {};
    }
  }

  lemma RingSize(ring: Ring)
    requires Complete(ring)
    ensures |ring.keys| == ring.current
  {
    CardinalityUpTo(ring.keys.Keys, ring.current);
  }

  lemma RotateComplete(ring: Ring, entropy: Key)
    requires Complete(ring) && !Holds(ring, entropy) && Rotate(ring, ring.current, entropy).Some?
    ensures var r := Rotate(ring, ring.current, entropy).value;
      Complete(r) && Earlier(ring, r) && r.keys[r.current] == entropy
  {
  }

  lemma EarlierTransitive(a: Ring, b: Ring, c: Ring)
    requires Earlier(a, b) && Earlier(b, c)
    ensures Earlier(a, c)
  {
  }

  /** Two complete rings of the same length, one an earlier stage of the other, are the same ring. */
  lemma EarlierSame(ring: Ring, master: Ring)
    requires Earlier(ring, master) && Complete(master) && ring.current == master.current
    ensures ring == master
  {
    assert ring.keys.Keys == master.keys.Keys;
  }

  lemma PrepareKeeps(w: World, source: nat, code: nat, next: nat, device: nat)
    requires Inv(w) && DoPrepare(w, source, code, next, device).Done?
    ensures Inv(DoPrepare(w, source, code, next, device).state)
  {
    var w' := DoPrepare(w, source, code, next, device).state;
    EarlierSame(w.backups[source].ring, Master(w));
    forall i | 0 <= i < |w'.prepared| ensures PreparedInv(w', w'.prepared[i]) {
      if i < |w.prepared| {
        assert PreparedInv(w, w.prepared[i]);
      }
    }
  }

  /** Retiring the current backup for one that extends its ring keeps the backups in order. */
  lemma RotateRecoveryKeeps(w: World, next: nat, ring: Ring)
    requires w.backups != [] && BackupsInv(w.backups, w.usedCodes, Master(w)) && next !in w.usedCodes
    requires Earlier(Master(w), ring) && Complete(ring)
    ensures var w' := RotateRecovery(w, next, ring); BackupsInv(w'.backups, w'.usedCodes, ring)
  {
    var w' := RotateRecovery(w, next, ring);
    forall b | 0 <= b < |w'.backups|
      ensures Earlier(w'.backups[b].ring, ring) && w'.backups[b].code in w'.usedCodes &&
        (w'.backups[b].active <==> b == |w'.backups| - 1)
    {
      if b < |w.backups| {
        EarlierTransitive(w.backups[b].ring, Master(w), ring);
      }
    }
  }

  lemma SubmitKeeps(w: World, i: nat, now: nat)
    requires Inv(w) && DoSubmit(w, i, now).Done?
    ensures Inv(DoSubmit(w, i, now).state)
  {
    var w' := DoSubmit(w, i, now).state;
    var p, base := w.prepared[i], Master(w);
    assert PreparedInv(w, p);
    RotateComplete(base, p.key);
    RingSize(base);
    RotateRecoveryKeeps(w, p.next, p.ring);
    assert Master(w') == p.ring;
    forall g | 0 <= g < |w'.devices|
      ensures Earlier(w'.devices[g].ring, p.ring) && w'.devices[g].generation == w'.devices[g].ring.current &&
        w'.devices[g].address in w'.usedDevices
    {
      if g < |w.devices| {
        EarlierTransitive(w.devices[g].ring, base, p.ring);
      }
    }
    forall j | 0 <= j < |w'.prepared| ensures PreparedInv(w', w'.prepared[j]) {
      assert PreparedInv(w, w.prepared[j]);
    }
    forall r | 0 <= r < |w'.records| ensures Opens(p.ring, w'.records[r]) {
      assert Opens(base, w.records[r]);
    }
  }

  lemma ReplaceKeeps(w: World, g: nat, next: nat, now: nat)
    requires Inv(w) && DoReplaceCode(w, g, next, now).Done?
    ensures Inv(DoReplaceCode(w, g, next, now).state)
  {
    var w' := DoReplaceCode(w, g, next, now).state;
    assert Earlier(w.devices[g].ring, Master(w));
    EarlierSame(w.devices[g].ring, Master(w));
    RotateRecoveryKeeps(w, next, Master(w));
    assert Master(w') == Master(w);
    forall j | 0 <= j < |w'.prepared| ensures PreparedInv(w', w'.prepared[j]) {
      assert PreparedInv(w, w.prepared[j]);
    }
  }

  lemma SaveKeeps(w: World, g: nat, now: nat)
    requires Inv(w) && DoSave(w, g, now).Done?
    ensures Inv(DoSave(w, g, now).state)
  {
    var w' := DoSave(w, g, now).state;
    assert Earlier(w.devices[g].ring, Master(w));
    forall j | 0 <= j < |w'.prepared| ensures PreparedInv(w', w'.prepared[j]) {
      assert PreparedInv(w, w.prepared[j]);
    }
  }

  lemma StepKeeps(w: World, e: Event)
    requires Inv(w)
    ensures Inv(Step(w, e))
  {
    if Apply(w, e).Done? {
      match e
      case Prepare(source, code, next, device) => PrepareKeeps(w, source, code, next, device);
      case Submit(i, now) => SubmitKeeps(w, i, now);
      case ReplaceCode(g, next, now) => ReplaceKeeps(w, g, next, now);
      case Save(g, now) => SaveKeeps(w, g, now);
    }
  }

  lemma {:induction false} ExecuteKeeps(w: World, events: seq<Event>)
    requires Inv(w)
    ensures Inv(Execute(w, events))
    decreases |events|
  {
    if events != [] {
      StepKeeps(w, events[0]);
      ExecuteKeeps(Step(w, events[0]), events[1..]);
    }
  }

  // -------------------------------------------------------------- theorems

  lemma {:induction false} CountersMove(w: World, events: seq<Event>)
    ensures var w', k := Execute(w, events), Recoveries(w, events);
      w'.generation == w.generation + k && w'.keyVersion == w.keyVersion + k &&
      w'.recoveryVersion == w.recoveryVersion + k + Replacements(w, events)
    decreases |events|
  {
    if events != [] {
      CountersMove(Step(w, events[0]), events[1..]);
    }
  }

  /** After k recoveries and r code replacements in any run, the generation is 1 + k, the recovery version 1 + k + r,
      the key version k + 1, and k is at most 255. */
  lemma RoundCounters(code: nat, device: nat, now: nat, events: seq<Event>)
    ensures var w0 := Created(code, device, now);
      var w, k := Execute(w0, events), Recoveries(w0, events);
      w.generation == 1 + k && w.keyVersion == k + 1 && w.recoveryVersion == 1 + k + Replacements(w0, events) &&
        k <= 255
  {
    CreatedInv(code, device, now);
    CountersMove(Created(code, device, now), events);
    ExecuteKeeps(Created(code, device, now), events);
  }

  /** The current keyring opens every record ever written. A keyring kept from any earlier round opens exactly what was
      written up to its own version and holds no later key under any version. */
  lemma KeyringReach(code: nat, device: nat, now: nat, events: seq<Event>, ring: Ring, r: nat)
    requires var w := Execute(Created(code, device, now), events);
      r < |w.records| &&
      ((exists b :: 0 <= b < |w.backups| && w.backups[b].ring == ring) ||
        (exists g :: 0 <= g < |w.devices| && w.devices[g].ring == ring))
    ensures var w := Execute(Created(code, device, now), events);
      var rec := w.records[r];
      w.backups != [] && Opens(Master(w), rec) &&
      (Opens(ring, rec) <==> rec.keyVersion <= ring.current) &&
        (Holds(ring, rec.key) <==> rec.keyVersion <= ring.current)
  {
    CreatedInv(code, device, now);
    ExecuteKeeps(Created(code, device, now), events);
    var w := Execute(Created(code, device, now), events);
    assert Earlier(ring, Master(w));
    assert Opens(Master(w), w.records[r]);
  }

  /** Only the newest backup and only devices of the newest generation are accepted. */
  lemma OnlyNewestAccepted(w: World, e: Event)
    requires Inv(w) && Apply(w, e).Done?
    ensures e.Submit? ==> w.prepared[e.index].source == |w.backups| - 1 && w.backups[w.prepared[e.index].source].active
    ensures e.Save? || e.ReplaceCode? ==>
      w.devices[e.grant].generation == w.generation && w.devices[e.grant].ring.current == w.keyVersion
    ensures e.Save? ==> Step(w, e).records[|w.records|].keyVersion == w.keyVersion
  {
  }

  lemma StepRetires(w: World, e: Event)
    requires Inv(w)
    ensures var w' := Step(w, e);
      |w.backups| <= |w'.backups| && |w.devices| <= |w'.devices| && w.records <= w'.records &&
        w.prepared <= w'.prepared &&
      (|w.backups| == |w'.backups| ==> w'.backups == w.backups) &&
      w.devices <= w'.devices && w.generation <= w'.generation
  {
  }

  lemma {:induction false} ExecuteRetires(w: World, events: seq<Event>)
    requires Inv(w)
    ensures var w' := Execute(w, events);
      |w.backups| <= |w'.backups| && w.records <= w'.records && w.prepared <= w'.prepared &&
        w.devices <= w'.devices && w.generation <= w'.generation
    decreases |events|
  {
    if events != [] {
      StepRetires(w, events[0]);
      StepKeeps(w, events[0]);
      ExecuteRetires(Step(w, events[0]), events[1..]);
    }
  }

  /** Of all recoveries prepared from one code at most one ever commits: once a backup was replaced, nothing prepared
      from it is accepted in any continuation, and no device of an older generation can write again. */
  lemma UsedNeverAcceptedAgain(w: World, events: seq<Event>, b: nat, i: nat, g: nat, next: nat, now: nat)
    requires Inv(w) && b + 1 < |w.backups|
    ensures var w' := Execute(w, events);
      (i < |w'.prepared| && w'.prepared[i].source == b ==> DoSubmit(w', i, now).Abort?) &&
      (g < |w.devices| && w.devices[g].generation < w.generation ==>
        DoSave(w', g, now).Abort? && DoReplaceCode(w', g, next, now).Abort?)
  {
    ExecuteRetires(w, events);
    ExecuteKeeps(w, events);
    var w' := Execute(w, events);
    if i < |w'.prepared| && DoSubmit(w', i, now).Done? {
      OnlyNewestAccepted(w', Submit(i, now));
    }
    if DoSave(w', g, now).Done? {
      OnlyNewestAccepted(w', Save(g, now));
    }
  }

  /** The exact condition for another recovery: fewer than 256 keys, and addresses never used before. */
  lemma RecoverableExactly(w: World, next: nat, device: nat, now: nat)
    requires Inv(w)
    ensures var b := |w.backups| - 1;
      var prep := DoPrepare(w, b, w.backups[b].code, next, device);
      (prep.Done? <==> w.keyVersion < MAX_KEYS) &&
      (prep.Done? ==>
        (DoSubmit(prep.state, |w.prepared|, now).Done? <==>
          next !in w.usedCodes && next !in w.usedDevices && device !in w.usedCodes && device != next))
  {
    RingSize(Master(w));
  }

  /** One round: prepare with the current code, submit, then write with the new device. */
  method OneRound(w: World, next: nat, device: nat, now: nat) returns (w': World)
    requires Inv(w) && w.keyVersion < MAX_KEYS
    requires next !in w.usedCodes && next !in w.usedDevices && device !in w.usedCodes && device != next
    ensures Inv(w')
    ensures w'.generation == w.generation + 1 && w'.keyVersion == w.keyVersion + 1 &&
      w'.recoveryVersion == w.recoveryVersion + 1
    ensures |w'.records| == |w.records| + 1 && w'.records[..|w.records|] == w.records &&
      w'.records[|w.records|].keyVersion == w'.keyVersion
    ensures w'.usedCodes == w.usedCodes + {next} && w'.usedDevices == w.usedDevices + {device}
    ensures w'.backups[|w'.backups| - 1].code == next
  {
    var b := |w.backups| - 1;
    var code := w.backups[b].code;
    RecoverableExactly(w, next, device, now);
    StepKeeps(w, Prepare(b, code, next, device));
    var prepared := Step(w, Prepare(b, code, next, device));
    StepKeeps(prepared, Submit(|w.prepared|, now));
    var recovered := Step(prepared, Submit(|w.prepared|, now));
    assert recovered.keyVersion == w.keyVersion + 1;
    var g := |recovered.devices| - 1;
    assert Complete(recovered.devices[g].ring);
    StepKeeps(recovered, Save(g, now));
    w' := Step(recovered, Save(g, now));
  }

  /** The recovery loop itself: any number of rounds up to 255, each with a fresh code and device and one record
      written after it. */
  method Rounds(start: World, codes: seq<nat>, devices: seq<nat>, now: nat) returns (w: World)
    requires Inv(start) && |codes| == |devices| && start.keyVersion + |codes| <= MAX_KEYS
    requires forall i :: 0 <= i < |codes| ==>
      codes[i] !in start.usedCodes && codes[i] !in start.usedDevices && devices[i] !in start.usedCodes
    requires forall i, j :: 0 <= i < |codes| && 0 <= j < |codes| ==>
      codes[i] != devices[j] && (i != j ==> codes[i] != codes[j])
    ensures Inv(w)
    ensures w.generation == start.generation + |codes| && w.keyVersion == start.keyVersion + |codes|
    ensures w.recoveryVersion == start.recoveryVersion + |codes| && |w.records| == |start.records| + |codes|
    ensures forall r :: |start.records| <= r < |w.records| ==>
      w.records[r].keyVersion == start.keyVersion + 1 + r - |start.records|
    ensures codes != [] ==> w.backups[|w.backups| - 1].code == codes[|codes| - 1]
  {
    w := start;
    for round := 0 to |codes|
      invariant Inv(w)
      invariant w.generation == start.generation + round && w.keyVersion == start.keyVersion + round
      invariant w.recoveryVersion == start.recoveryVersion + round && |w.records| == |start.records| + round
      invariant forall r :: |start.records| <= r < |w.records| ==>
        w.records[r].keyVersion == start.keyVersion + 1 + r - |start.records|
      invariant round > 0 ==> w.backups[|w.backups| - 1].code == codes[round - 1]
      invariant forall c :: c in w.usedCodes ==> c in start.usedCodes || c in codes[..round]
      invariant forall d :: d in w.usedDevices ==> d in start.usedDevices || d in devices[..round]
    {
      var next := OneRound(w, codes[round], devices[round], now);
      w := next;
    }
  }
}
