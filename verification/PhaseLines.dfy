/**
 * Which phase a line of helper output reaches, tag by tag, in the two harnesses: what a settled phase holds is the
 * value parsed from the text behind its own tag, and a line under no tag reaches nothing.
 */
module PhaseLines {
  import opened Framing
  import opened PhaseHarness

  /** A value for one phase: it settles that phase if it is waiting, and no other. */
  function Delivered(phases: Phases, name: string, v: Json): Phases {
    if name in phases && phases[name] == Waiting then phases[name := Resolved(v)] else phases
  }

  /** Every waiting phase is rejected. */
  ghost predicate AllBroken(phases: Phases, after: Phases) {
    after.Keys == phases.Keys && forall k :: k in phases ==>
      after[k] == if phases[k] == Waiting then Rejected(BadLine) else phases[k]
  }

  /** A tag, a space and a payload read as that payload under that tag. */
  lemma Headed(tag: string, p: string)
    ensures Starts(tag + " " + p, tag) && Payload(tag + " " + p, tag) == p
  {
    var line := tag + " " + p;
    assert line == tag + (" " + p);
    assert line[..|tag|] == tag && line[|tag|] == ' ' && line[|tag| + 1..] == p;
  }

  lemma Rejoined(line: string, name: string)
    requires Starts(line, name)
    ensures line == name + " " + Payload(line, name)
  {
  }

  lemma MeansTag(parse: string -> Parsed, i: nat, p: string)
    requires i < |Tags()|
    ensures var line := Tags()[i] + " " + p;
      Means(parse, line, Tags()) == Under(parse, line, Tags()[i]) &&
      Starts(line, Tags()[i]) && Payload(line, Tags()[i]) == p
  {
    var tags := Tags();
    var line := tags[i] + " " + p;
    Headed(tags[i], p);
    forall j | 0 <= j < i ensures !Starts(line, tags[j]) {
      TagsPlain(j, i);
      TagsPlain(i, j);
      if Starts(line, tags[j]) {
        OneName(line, tags[i], tags[j]);
      }
    }
    MeansOne(parse, line, tags, i);
  }

  lemma PlainLine(parse: string -> Parsed, phases: Phases, i: nat, p: string, v: Json)
    requires 2 <= i < |Tags()| && parse(p) == Good(v) && Tags()[i] in DIRECT && Tags()[i] !in NATIVE
    ensures HearB(parse, phases, Tags()[i] + " " + p) == Delivered(phases, DIRECT[Tags()[i]], v)
  {
    MeansTag(parse, i, p);
  }

  /** The five plain tags of the command-line harness, each with its own phase. */
  lemma PlainLines(parse: string -> Parsed, phases: Phases, p: string, v: Json)
    requires parse(p) == Good(v)
    ensures HearB(parse, phases, "FM_ENVD_HOST_PUBLIC" + " " + p) == Delivered(phases, "public", v)
    ensures HearB(parse, phases, "FM_HOST_JOIN_CLI_RESULT" + " " + p) == Delivered(phases, "result", v)
    ensures HearB(parse, phases, "FM_HOST_REJOIN_READY" + " " + p) == Delivered(phases, "rejoinReady", v)
    ensures HearB(parse, phases, "FM_HOST_REJOIN_RESULT" + " " + p) == Delivered(phases, "rejoinResult", v)
    ensures HearB(parse, phases, "FM_CHAIN_CONNECTION_RESULT" + " " + p) == Delivered(phases, "connection", v)
  {
    PlainLine(parse, phases, 2, p, v);
    PlainLine(parse, phases, 3, p, v);
    PlainLine(parse, phases, 4, p, v);
    PlainLine(parse, phases, 5, p, v);
    PlainLine(parse, phases, 6, p, v);
  }

  /** The two native tags name their phase in the value: one of the four native phases, or the line is broken. */
  lemma NativeLines(parse: string -> Parsed, phases: Phases, p: string, v: Json)
    requires parse(p) == Good(v)
    ensures var ready := HearB(parse, phases, "FM_NATIVE_CONTROL_READY" + " " + p);
      if v.phase == "status" then ready == Delivered(phases, "statusReady", v)
      else if v.phase == "execute" then ready == Delivered(phases, "executeReady", v)
      else AllBroken(phases, ready)
    ensures var result := HearB(parse, phases, "FM_NATIVE_CONTROL_RESULT" + " " + p);
      if v.phase == "status" then result == Delivered(phases, "statusResult", v)
      else if v.phase == "execute" then result == Delivered(phases, "executeResult", v)
      else AllBroken(phases, result)
  {
    MeansTag(parse, 0, p);
    MeansTag(parse, 1, p);
    NativePhase(v.phase);
  }

  lemma SameEnding(a: string, b: string, ending: string)
    ensures a + ending == b + ending <==> a == b
  {
    assert (a + ending)[..|a|] == a && (b + ending)[..|b|] == b;
  }

  lemma OtherEnding(a: string, b: string)
    ensures a + "Ready" != b + "Result"
  {
    assert (a + "Ready")[|a| + 4] == 'y' && (b + "Result")[|b| + 5] == 't';
  }

  /** The four native phases are the two words with the two endings, and no other word has them. */
  lemma NativePhase(word: string)
    ensures word + "Ready" in NATIVE_PHASES <==> word == "status" || word == "execute"
    ensures word + "Result" in NATIVE_PHASES <==> word == "status" || word == "execute"
    ensures "status" + "Ready" == "statusReady" && "execute" + "Ready" == "executeReady"
    ensures "status" + "Result" == "statusResult" && "execute" + "Result" == "executeResult"
  {
    assert "status" + "Ready" == "statusReady" && "execute" + "Ready" == "executeReady";
    assert "status" + "Result" == "statusResult" && "execute" + "Result" == "executeResult";
    assert NATIVE_PHASES == {"status" + "Ready", "execute" + "Ready", "status" + "Result", "execute" + "Result"};
    SameEnding(word, "status", "Ready");
    SameEnding(word, "execute", "Ready");
    SameEnding(word, "status", "Result");
    SameEnding(word, "execute", "Result");
    OtherEnding(word, "status");
    OtherEnding(word, "execute");
    OtherEnding("status", word);
    OtherEnding("execute", word);
  }

  /** Under any of the seven tags, a payload that does not parse rejects everything still waiting. */
  lemma MalformedLines(parse: string -> Parsed, phases: Phases, tag: string, p: string)
    requires parse(p).Malformed?
    requires tag in {"FM_NATIVE_CONTROL_READY", "FM_NATIVE_CONTROL_RESULT", "FM_ENVD_HOST_PUBLIC",
      "FM_HOST_JOIN_CLI_RESULT", "FM_HOST_REJOIN_READY", "FM_HOST_REJOIN_RESULT", "FM_CHAIN_CONNECTION_RESULT"}
    ensures AllBroken(phases, HearB(parse, phases, tag + " " + p))
  {
    var tags := Tags();
    assert tag in tags by {
      assert tags[0] in tags && tags[1] in tags && tags[2] in tags && tags[3] in tags && tags[4] in tags &&
        tags[5] in tags && tags[6] in tags;
    }
    var i: nat :| i < |tags| && tags[i] == tag;
    MeansTag(parse, i, p);
  }

  /** A line under none of the seven tags settles nothing. */
  lemma OtherLines(parse: string -> Parsed, phases: Phases, line: string)
    requires forall tag, p {:trigger tag + " " + p} ::
      tag in {"FM_NATIVE_CONTROL_READY", "FM_NATIVE_CONTROL_RESULT", "FM_ENVD_HOST_PUBLIC",
        "FM_HOST_JOIN_CLI_RESULT", "FM_HOST_REJOIN_READY", "FM_HOST_REJOIN_RESULT", "FM_CHAIN_CONNECTION_RESULT"} ==>
        line != tag + " " + p
    ensures HearB(parse, phases, line) == phases
  {
    var tags := Tags();
    forall j | 0 <= j < |tags| ensures !Starts(line, tags[j]) {
      if Starts(line, tags[j]) {
        Rejoined(line, tags[j]);
      }
    }
    MeansNone(parse, line, tags);
  }

  /** In the harness with named phases, a line headed by a name settles that phase alone: with the parsed value, or with
      the error of its own payload. */
  lemma NamedLines(parse: string -> Parsed, phases: Phases, name: string, p: string)
    requires ' ' !in name && forall k :: k in phases ==> ' ' !in k
    ensures var after := HearA(parse, phases, name + " " + p);
      after.Keys == phases.Keys &&
      (forall k :: k in phases && (k != name || phases[k] != Waiting) ==> after[k] == phases[k]) &&
      (name in phases && phases[name] == Waiting ==>
        match parse(p)
        case Good(v) => after[name] == Resolved(v)
        case Malformed => after[name] == Rejected(BadLine))
  {
    var line := name + " " + p;
    Headed(name, p);
    forall k | k in phases && k != name ensures !Starts(line, k) {
      if Starts(line, k) {
        OneName(line, k, name);
      }
    }
  }

  /** And a line headed by no name settles nothing. */
  lemma UnnamedLines(parse: string -> Parsed, phases: Phases, line: string)
    requires forall k, p {:trigger k + " " + p} :: k in phases ==> line != k + " " + p
    ensures HearA(parse, phases, line) == phases
  {
    forall k | k in phases ensures !Starts(line, k) {
      if Starts(line, k) {
        Rejoined(line, k);
      }
    }
  }
}
