/**
 * The replay indexes of a capability: in every run they hold exactly the identifiers of its Runs, so no two Runs of a
 * capability share any of them, and a command whose id is known commits exactly when it repeats its Run. The cursor of
 * a Run tells what has happened to it.
 */
module OkrReplay {
  import opened Common
  import opened OkrProtocol
  import opened OkrTheorems
  import opened OkrGuards

  ghost predicate Filed(cap: Cap, cmd: Command, r: nat) {
    Maps(cap.intents, cmd.intent, r) && Maps(cap.commands, cmd.id, cmd.intent) &&
    Maps(cap.nonces, cmd.nonce, cmd.intent) && Maps(cap.keys, cmd.key, cmd.intent)
  }

  /** Run `r` is a Run of capability `c` for this intent. */
  ghost predicate RunFor(cap: Cap, c: nat, runs: seq<Run>, intent: nat) {
    intent in cap.intents && cap.intents[intent] < |runs| &&
    runs[cap.intents[intent]].cap == c && runs[cap.intents[intent]].command.intent == intent
  }

  /** The command of the Run an indexed intent belongs to. */
  ghost function CommandFor(cap: Cap, runs: seq<Run>, intent: nat): Command
    requires intent in cap.intents && cap.intents[intent] < |runs|
  {
    runs[cap.intents[intent]].command
  }

  ghost predicate CapIndexed(cap: Cap, c: nat, runs: seq<Run>) {
    (forall r :: 0 <= r < |runs| && runs[r].cap == c ==> Filed(cap, runs[r].command, r)) &&
    (forall x :: x in cap.intents ==> RunFor(cap, c, runs, x)) &&
    (forall x :: x in cap.commands ==>
      RunFor(cap, c, runs, cap.commands[x]) && CommandFor(cap, runs, cap.commands[x]).id == x) &&
    (forall x :: x in cap.nonces ==>
      RunFor(cap, c, runs, cap.nonces[x]) && CommandFor(cap, runs, cap.nonces[x]).nonce == x) &&
    (forall x :: x in cap.keys ==> RunFor(cap, c, runs, cap.keys[x]) && CommandFor(cap, runs, cap.keys[x]).key == x)
  }

  /** What the cursor counts: the preparation, the start, a stop request, and the end. */
  ghost predicate CursorTells(run: Run) {
    match run.state
    case Queued => run.cursor == 1
    case Running => run.cursor == if run.stop then 3 else 2
    case Cancelled => run.cursor == 2 || run.cursor == 4
    case _ => run.cursor == if run.stop then 4 else 3
  }

  ghost predicate Indexed(w: World) {
    (forall c :: 0 <= c < |w.caps| ==> CapIndexed(w.caps[c], c, w.runs)) &&
    (forall r :: 0 <= r < |w.runs| ==> w.runs[r].cap < |w.caps| && CursorTells(w.runs[r])) &&
    (forall c :: 0 <= c < |w.caps| ==> w.caps[c].revision == if w.caps[c].revoked then 2 else 1)
  }

  // ------------------------------------------------------------ every transaction keeps it

  ghost predicate SameIndex(cap: Cap, cap': Cap) {
    cap'.intents == cap.intents && cap'.commands == cap.commands && cap'.nonces == cap.nonces && cap'.keys == cap.keys
  }

  ghost predicate SameCommands(runs: seq<Run>, runs': seq<Run>) {
    |runs'| == |runs| &&
    forall r {:trigger runs'[r]} :: 0 <= r < |runs| ==>
      runs'[r].cap == runs[r].cap && runs'[r].command == runs[r].command
  }

  lemma IndexKept(cap: Cap, cap': Cap, c: nat, runs: seq<Run>, runs': seq<Run>)
    requires CapIndexed(cap, c, runs) && SameIndex(cap, cap') && SameCommands(runs, runs')
    ensures CapIndexed(cap', c, runs')
  {
  }

  /** A Run of another capability changes nothing here. */
  lemma IndexOther(cap: Cap, c: nat, runs: seq<Run>, run: Run)
    requires CapIndexed(cap, c, runs) && run.cap != c
    ensures CapIndexed(cap, c, runs + [run])
  {
    assert forall x :: RunFor(cap, c, runs, x) ==>
      RunFor(cap, c, runs + [run], x) && CommandFor(cap, runs + [run], x) == CommandFor(cap, runs, x);
  }

  lemma IndexNew(cap: Cap, c: nat, runs: seq<Run>, run: Run)
    requires CapIndexed(cap, c, runs) && run.cap == c
    requires run.command.intent !in cap.intents && run.command.id !in cap.commands &&
      run.command.nonce !in cap.nonces && run.command.key !in cap.keys
    ensures CapIndexed(Claimed(cap, run.command, |runs|), c, runs + [run])
  {
    var cap', runs', cmd := Claimed(cap, run.command, |runs|), runs + [run], run.command;
    assert RunFor(cap', c, runs', cmd.intent) && CommandFor(cap', runs', cmd.intent) == cmd;
    forall r | 0 <= r < |runs'| && runs'[r].cap == c ensures Filed(cap', runs'[r].command, r) {
      assert r < |runs| ==> Filed(cap, runs[r].command, r);
    }
    forall x | RunFor(cap, c, runs, x)
      ensures RunFor(cap', c, runs', x) && CommandFor(cap', runs', x) == CommandFor(cap, runs, x)
    {
      assert x != cmd.intent;
    }
  }

  lemma PrepareIndexed(w: World, o: nat, c: nat, agreement: nat, kr: nat, scheduled: bool, cmd: Command, now: nat)
    requires Indexed(w) && DoPrepare(w, o, c, agreement, kr, scheduled, cmd, now).Done?
    ensures Indexed(DoPrepare(w, o, c, agreement, kr, scheduled, cmd, now).state)
  {
    PrepareFrame(w, o, c, agreement, kr, scheduled, cmd, now);
    if cmd.id !in w.caps[c].commands {
      var w' := Reserve(w, o, c, agreement, kr, cmd, now);
      var run := w'.runs[|w.runs|];
      assert run.cap == c && run.command == cmd && CursorTells(run);
      forall d | 0 <= d < |w'.caps| ensures CapIndexed(w'.caps[d], d, w'.runs) {
        assert CapIndexed(w.caps[d], d, w.runs);
        if d == c {
          IndexNew(w.caps[c], c, w.runs, run);
        } else {
          IndexOther(w.caps[d], d, w.runs, run);
        }
      }
    }
  }

  lemma RunMoves(w: World, call: Call)
    requires IsRunEntry(call.op) && Apply(w, call).Done?
    ensures var r, w' := call.op.run, Apply(w, call).state;
      r < |w.runs| && |w'.caps| == |w.caps| && SameCommands(w.runs, w'.runs) &&
      (CursorTells(w.runs[r]) && (w.runs[r].state.Queued? ==> !w.runs[r].stop) ==> CursorTells(w'.runs[r])) &&
      (forall q :: 0 <= q < |w.runs| && q != r ==> w'.runs[q] == w.runs[q]) &&
      (forall c :: 0 <= c < |w.caps| ==>
        SameIndex(w.caps[c], w'.caps[c]) && w'.caps[c].revision == w.caps[c].revision &&
        w'.caps[c].revoked == w.caps[c].revoked)
  {
  }

  lemma IndexedAfter(w: World, w': World)
    requires Indexed(w) && |w'.caps| == |w.caps| && SameCommands(w.runs, w'.runs)
    requires forall c {:trigger w'.caps[c]} :: 0 <= c < |w.caps| ==>
      SameIndex(w.caps[c], w'.caps[c]) && w'.caps[c].revision == if w'.caps[c].revoked then 2 else 1
    requires forall r {:trigger w'.runs[r]} :: 0 <= r < |w.runs| ==> CursorTells(w'.runs[r])
    ensures Indexed(w')
  {
    forall c | 0 <= c < |w'.caps| ensures CapIndexed(w'.caps[c], c, w'.runs) {
      IndexKept(w.caps[c], w'.caps[c], c, w.runs, w'.runs);
    }
  }

  lemma RunIndexed(w: World, call: Call)
    requires Inv(w) && Indexed(w) && IsRunEntry(call.op) && Apply(w, call).Done?
    ensures Indexed(Apply(w, call).state)
  {
    RunMoves(w, call);
    assert RunInv(w, call.op.run);
    IndexedAfter(w, Apply(w, call).state);
  }

  lemma CapEntryIndexed(w: World, call: Call)
    requires Indexed(w) && (call.op.IssueCapability? || call.op.RevokeCapability?) && Apply(w, call).Done?
    ensures Indexed(Apply(w, call).state)
  {
    var w' := Apply(w, call).state;
    if call.op.RevokeCapability? {
      IndexedAfter(w, w');
    } else {
      assert w' == w.(caps := w.caps + [w'.caps[|w.caps|]]);
      IssueIndexed(w, w'.caps[|w.caps|]);
    }
  }

  lemma IssueIndexed(w: World, cap: Cap)
    requires Indexed(w) && !cap.revoked && cap.revision == 1
    requires cap.intents == cap.commands == cap.nonces == cap.keys == map[]
    ensures Indexed(w.(caps := w.caps + [cap]))
  {
    assert CapIndexed(cap, |w.caps|, w.runs);
  }

  lemma StepIndexed(w: World, call: Call)
    requires Inv(w) && Indexed(w)
    ensures Indexed(Step(w, call))
  {
    if Apply(w, call).Done? {
      if IsOkrEntry(call.op) {
        OkrEntryFrame(w, call);
      } else if call.op.Prepare? {
        PrepareIndexed(w, call.op.okr, call.op.cap, call.op.agreement, call.op.kr, call.op.scheduled, call.op.command,
          call.now);
      } else if IsRunEntry(call.op) {
        RunIndexed(w, call);
      } else if call.op.IssueCapability? || call.op.RevokeCapability? {
        CapEntryIndexed(w, call);
      }
    }
  }

  lemma {:induction false} ExecuteIndexed(w: World, calls: seq<Call>)
    requires Inv(w) && Indexed(w)
    ensures Inv(Execute(w, calls)) && Indexed(Execute(w, calls))
    decreases |calls|
  {
    if calls != [] {
      StepKeeps(w, calls[0]);
      StepIndexed(w, calls[0]);
      ExecuteIndexed(Step(w, calls[0]), calls[1..]);
    }
  }

  // ------------------------------------------------------------ theorems

  /** In every run, two Runs of one capability share no intent, no command id, no nonce and no idempotency key. */
  lemma OneRunPerIdentifier(calls: seq<Call>, r: nat, q: nat)
    ensures var runs := Execute(EMPTY, calls).runs;
      r < |runs| && q < |runs| && r != q && runs[r].cap == runs[q].cap ==>
        runs[r].command.intent != runs[q].command.intent && runs[r].command.id != runs[q].command.id &&
        runs[r].command.nonce != runs[q].command.nonce && runs[r].command.key != runs[q].command.key
  {
    ExecuteIndexed(EMPTY, calls);
    var w := Execute(EMPTY, calls);
    if r < |w.runs| && q < |w.runs| && w.runs[r].cap == w.runs[q].cap {
      assert CapIndexed(w.caps[w.runs[r].cap], w.runs[r].cap, w.runs);
      assert Filed(w.caps[w.runs[r].cap], w.runs[r].command, r);
      assert Filed(w.caps[w.runs[r].cap], w.runs[q].command, q);
    }
  }

  /** A capability knows an identifier exactly when one of its Runs carries it. */
  lemma KnownExactly(calls: seq<Call>, c: nat, x: nat)
    ensures var w := Execute(EMPTY, calls);
      c < |w.caps| ==>
        (x in w.caps[c].intents <==> exists r :: (
          0 <= r < |w.runs| && w.runs[r].cap == c && w.runs[r].command.intent == x)) &&
        (x in w.caps[c].commands <==> exists r :: (
          0 <= r < |w.runs| && w.runs[r].cap == c && w.runs[r].command.id == x)) &&
        (x in w.caps[c].nonces <==> exists r :: (
          0 <= r < |w.runs| && w.runs[r].cap == c && w.runs[r].command.nonce == x)) &&
        (x in w.caps[c].keys <==> exists r :: 0 <= r < |w.runs| && w.runs[r].cap == c && w.runs[r].command.key == x)
  {
    ExecuteIndexed(EMPTY, calls);
    var w := Execute(EMPTY, calls);
    if c < |w.caps| {
      assert CapIndexed(w.caps[c], c, w.runs);
      forall r | 0 <= r < |w.runs| && w.runs[r].cap == c ensures Filed(w.caps[c], w.runs[r].command, r) {
      }
    }
  }

  /** Run `r` was prepared with this very command, for this KR of this OKR. */
  ghost predicate Repeats(w: World, r: nat, o: nat, c: nat, agreement: nat, kr: nat, cmd: Command) {
    r < |w.runs| && w.runs[r].okr == o && w.runs[r].cap == c && w.runs[r].agreement == agreement &&
    w.runs[r].kr == kr && w.runs[r].command.intent == cmd.intent && w.runs[r].command.id == cmd.id &&
    w.runs[r].command.nonce == cmd.nonce && w.runs[r].command.key == cmd.key &&
    w.runs[r].command.asset == cmd.asset && w.runs[r].command.amount == cmd.amount
  }

  /** A command with a known id commits exactly when it may still be prepared and repeats its Run; it then changes
      nothing. */
  lemma ReplayExactly(w: World, o: nat, c: nat, agreement: nat, kr: nat, scheduled: bool, cmd: Command, now: nat)
    requires Inv(w) && Indexed(w) && o < |w.okrs| && c < |w.caps| && cmd.id in w.caps[c].commands
    ensures var out := DoPrepare(w, o, c, agreement, kr, scheduled, cmd, now);
      (out.Done? <==> (
        MayPrepare(w, o, c, agreement, kr, scheduled, cmd, now) &&
        exists r: nat :: Repeats(w, r, o, c, agreement, kr, cmd))) &&
      (out.Done? ==> out.state == w)
  {
    assert CapIndexed(w.caps[c], c, w.runs);
    assert Ordered(w.okrs[o], w.runs, o);
    if r: nat :| Repeats(w, r, o, c, agreement, kr, cmd) {
      assert Filed(w.caps[c], w.runs[r].command, r);
      assert RunInv(w, r);
    }
    if DoPrepare(w, o, c, agreement, kr, scheduled, cmd, now).Done? {
      assert RunFor(w.caps[c], c, w.runs, cmd.intent);
      assert Repeats(w, w.caps[c].intents[cmd.intent], o, c, agreement, kr, cmd);
    }
  }

  /** The cursor a Host must name to finish a Run: two, or three after a stop request. */
  lemma RunningCursor(calls: seq<Call>, r: nat)
    ensures var runs := Execute(EMPTY, calls).runs;
      r < |runs| && runs[r].state.Running? ==> runs[r].cursor == if runs[r].stop then 3 else 2
  {
    ExecuteIndexed(EMPTY, calls);
    var w := Execute(EMPTY, calls);
    assert r < |w.runs| ==> CursorTells(w.runs[r]);
  }
}
