/** Newline framing: which lines a text holds, and what is left over. */
module Framing {

  /** The text after the last newline. */
  function Tail(s: string): string {
    if s == "" || s[|s| - 1] == '\n' then "" else Tail(s[..|s| - 1]) + [s[|s| - 1]]
  }

  /** The newline-terminated lines of a text, in order and without their newlines. */
  function Lines(s: string): seq<string> {
    if s == "" then []
    else if s[|s| - 1] == '\n' then Lines(s[..|s| - 1]) + [Tail(s[..|s| - 1])]
    else Lines(s[..|s| - 1])
  }

  function Concat(chunks: seq<string>): string {
    if chunks == [] then "" else chunks[0] + Concat(chunks[1..])
  }

  /** The lines a framing loop dispatches for a series of chunks, starting with a buffer, and the buffer it ends
      with. */
  function Dispatched(buffer: string, chunks: seq<string>): seq<string>
    decreases |chunks|
  {
    if chunks == [] then [] else Lines(buffer + chunks[0]) + Dispatched(Tail(buffer + chunks[0]), chunks[1..])
  }

  function Leftover(buffer: string, chunks: seq<string>): string
    decreases |chunks|
  {
    if chunks == [] then buffer else Leftover(Tail(buffer + chunks[0]), chunks[1..])
  }

  /** Where a text is cut does not matter: its lines are those of the first part, then those of the rest behind its
      tail. */
  lemma {:induction false} LinesSplit(a: string, b: string)
    ensures Lines(a + b) == Lines(a) + Lines(Tail(a) + b)
    ensures Tail(a + b) == Tail(Tail(a) + b)
    decreases |b|
  {
    if b == "" {
      assert a + b == a && Tail(a) + b == Tail(a);
      TailIsOpen(a);
    } else {
      var m := |b| - 1;
      LinesSplit(a, b[..m]);
      assert (a + b)[..|a + b| - 1] == a + b[..m];
      assert (Tail(a) + b)[..|Tail(a) + b| - 1] == Tail(a) + b[..m];
    }
  }

  /** A text without newlines is all tail. */
  lemma {:induction false} OpenText(s: string)
    requires '\n' !in s
    ensures Tail(s) == s && Lines(s) == []
  {
    if s != "" {
      OpenText(s[..|s| - 1]);
    }
  }

  lemma {:induction false} NoNewline(s: string)
    ensures '\n' !in Tail(s) && forall i :: 0 <= i < |Lines(s)| ==> '\n' !in Lines(s)[i]
  {
    if s != "" {
      NoNewline(s[..|s| - 1]);
    }
  }

  lemma TailIsOpen(s: string)
    ensures Tail(Tail(s)) == Tail(s) && Lines(Tail(s)) == []
  {
    NoNewline(s);
    OpenText(Tail(s));
  }

  lemma OneLine(line: string)
    requires '\n' !in line
    ensures Lines(line + "\n") == [line] && Tail(line + "\n") == ""
  {
    assert (line + "\n")[..|line|] == line;
    OpenText(line);
  }

  /** Taking the text up to its first newline off the front takes its first line off. */
  lemma FirstLine(line: string, rest: string)
    requires '\n' !in line
    ensures Lines(line + "\n" + rest) == [line] + Lines(rest) && Tail(line + "\n" + rest) == Tail(rest)
  {
    OneLine(line);
    LinesSplit(line + "\n", rest);
    assert "" + rest == rest;
  }

  /** For every way of cutting the output into chunks, exactly the lines of the whole output are dispatched, in
      order, and exactly the text after its last newline is left over. */
  lemma {:induction false} ChunkingIrrelevant(buffer: string, chunks: seq<string>)
    requires '\n' !in buffer
    ensures Dispatched(buffer, chunks) == Lines(buffer + Concat(chunks)) &&
      Leftover(buffer, chunks) == Tail(buffer + Concat(chunks))
    decreases |chunks|
  {
    if chunks == [] {
      assert buffer + Concat(chunks) == buffer;
      OpenText(buffer);
    } else {
      var text := buffer + chunks[0];
      NoNewline(text);
      ChunkingIrrelevant(Tail(text), chunks[1..]);
      ChunkStep(buffer, chunks[0], Concat(chunks[1..]));
    }
  }

  lemma ChunkStep(buffer: string, chunk: string, rest: string)
    ensures Lines(buffer + (chunk + rest)) == Lines(buffer + chunk) + Lines(Tail(buffer + chunk) + rest)
    ensures Tail(buffer + (chunk + rest)) == Tail(Tail(buffer + chunk) + rest)
  {
    assert buffer + (chunk + rest) == (buffer + chunk) + rest;
    LinesSplit(buffer + chunk, rest);
  }

  function Unlines(lines: seq<string>): string {
    if lines == [] then "" else Unlines(lines[..|lines| - 1]) + lines[|lines| - 1] + "\n"
  }

  /** Nothing is lost: the lines, each with its newline, and the tail make up the text. */
  lemma {:induction false} Faithful(s: string)
    ensures Unlines(Lines(s)) + Tail(s) == s
  {
    if s != "" {
      var init := s[..|s| - 1];
      Faithful(init);
      if s[|s| - 1] == '\n' {
        assert Lines(s)[..|Lines(s)| - 1] == Lines(init);
      }
    }
  }
}

/** One-shot phases settled by lines of helper output, in the two variants the scripts use. */
module PhaseHarness {
  import opened Framing

  /** A parsed value; `phase` is its phase member. */
  datatype Json = Json(text: string, phase: string)
  datatype Parsed = Good(value: Json) | Malformed
  datatype Reason = BadLine | Exited
  datatype Settled = Waiting | Resolved(value: Json) | Rejected(reason: Reason)
  type Phases = map<string, Settled>

  predicate Starts(line: string, name: string) { |name| < |line| && line[..|name|] == name && line[|name|] == ' ' }

  function Payload(line: string, name: string): string
    requires Starts(line, name)
  {
    line[|name| + 1..]
  }

  predicate Plain(name: string) { ' ' !in name }

  /** A promise settles once; whatever comes later is ignored. */
  function Settle(s: Settled, r: Settled): Settled { if s.Waiting? then r else s }

  function RejectAll(phases: Phases, reason: Reason): Phases {
    map k | k in phases :: Settle(phases[k], Rejected(reason))
  }

  /** At most one name without spaces heads a line. */
  lemma OneName(line: string, a: string, b: string)
    requires Plain(a) && Plain(b) && Starts(line, a) && Starts(line, b)
    ensures a == b
  {
    assert |a| == |b| by {
      assert line[..|a|] == a && line[..|b|] == b;
    }
  }

  // ------------------------------------------------------------ variant A

  function Verdict(parse: string -> Parsed, line: string, name: string): Settled
    requires Starts(line, name)
  {
    match parse(Payload(line, name))
    case Good(v) => Resolved(v)
    case Malformed => Rejected(BadLine)
  }

  function HearA(parse: string -> Parsed, phases: Phases, line: string): Phases {
    map k | k in phases :: if Starts(line, k) then Settle(phases[k], Verdict(parse, line, k)) else phases[k]
  }

  function HearAllA(parse: string -> Parsed, phases: Phases, lines: seq<string>): Phases
    decreases |lines|
  {
    if lines == [] then phases else HearAllA(parse, HearA(parse, phases, lines[0]), lines[1..])
  }

  /** What the first matching line says about a phase. */
  function FirstA(parse: string -> Parsed, lines: seq<string>, name: string): Settled {
    if lines == [] then Waiting else if Starts(lines[0], name) then Verdict(parse, lines[0], name)
      else FirstA(parse, lines[1..], name)
  }

  // ------------------------------------------------------------ variant B

  const DIRECT: map<string, string> := map[
    "FM_ENVD_HOST_PUBLIC" := "public", "FM_HOST_JOIN_CLI_RESULT" := "result",
      "FM_CHAIN_CONNECTION_RESULT" := "connection",
    "FM_HOST_REJOIN_READY" := "rejoinReady", "FM_HOST_REJOIN_RESULT" := "rejoinResult"]
  const NATIVE: map<string, string> := map["FM_NATIVE_CONTROL_READY" := "Ready", "FM_NATIVE_CONTROL_RESULT" := "Result"]
  const NATIVE_PHASES: set<string> := {"statusReady", "statusResult", "executeReady", "executeResult"}

  datatype Message = Silent | Broken | Deliver(phase: string, value: Json)

  /** What one line under one tag means: nothing, an exception, or a value for a phase. */
  function Under(parse: string -> Parsed, line: string, tag: string): Message {
    if !Starts(line, tag) then Silent else
    match parse(Payload(line, tag))
    case Malformed => Broken
    case Good(v) =>
      if tag in NATIVE then (if v.phase + NATIVE[tag] in NATIVE_PHASES then Deliver(v.phase + NATIVE[tag], v)
        else Broken)
      else if tag in DIRECT then Deliver(DIRECT[tag], v) else Silent
  }

  function Tags(): seq<string> {
    ["FM_NATIVE_CONTROL_READY", "FM_NATIVE_CONTROL_RESULT", "FM_ENVD_HOST_PUBLIC", "FM_HOST_JOIN_CLI_RESULT",
     "FM_HOST_REJOIN_READY", "FM_HOST_REJOIN_RESULT", "FM_CHAIN_CONNECTION_RESULT"]
  }

  /** The first tag, in the order of the program, that the line falls under. */
  function Means(parse: string -> Parsed, line: string, tags: seq<string>): Message {
    if tags == [] then Silent else if Starts(line, tags[0]) then Under(parse, line, tags[0])
      else Means(parse, line, tags[1..])
  }

  function HearB(parse: string -> Parsed, phases: Phases, line: string): Phases {
    match Means(parse, line, Tags())
    case Silent => phases
    case Broken => RejectAll(phases, BadLine)
    case Deliver(k, v) => if k in phases then phases[k := Settle(phases[k], Resolved(v))] else phases
  }

  function HearAllB(parse: string -> Parsed, phases: Phases, lines: seq<string>): Phases
    decreases |lines|
  {
    if lines == [] then phases else HearAllB(parse, HearB(parse, phases, lines[0]), lines[1..])
  }

  /** The first line that delivers to the phase, or breaks, whichever comes first. */
  function FirstB(parse: string -> Parsed, lines: seq<string>, name: string): Settled {
    if lines == [] then Waiting else
    match Means(parse, lines[0], Tags())
    case Broken => Rejected(BadLine)
    case Deliver(k, v) => if k == name then Resolved(v) else FirstB(parse, lines[1..], name)
    case Silent => FirstB(parse, lines[1..], name)
  }

  // ------------------------------------------------------------ folding is first match

  lemma {:induction false} FirstConcatA(parse: string -> Parsed, lines: seq<string>, more: seq<string>, name: string)
    ensures FirstA(parse, lines + more, name) == Settle(FirstA(parse, lines, name), FirstA(parse, more, name))
  {
    if lines == [] {
      assert lines + more == more;
    } else {
      assert (lines + more)[1..] == lines[1..] + more;
      FirstConcatA(parse, lines[1..], more, name);
    }
  }

  /** A phase keeps what it has, or gets the effect of its first matching line, whatever happens to the others. */
  lemma {:induction false} PhaseIsFirstA(parse: string -> Parsed, phases: Phases, lines: seq<string>, name: string)
    requires name in phases
    ensures var after := HearAllA(parse, phases, lines);
      name in after && after[name] == Settle(phases[name], FirstA(parse, lines, name))
    decreases |lines|
  {
    if lines != [] {
      PhaseIsFirstA(parse, HearA(parse, phases, lines[0]), lines[1..], name);
    }
  }

  lemma {:induction false} FirstConcatB(parse: string -> Parsed, lines: seq<string>, more: seq<string>, name: string)
    ensures FirstB(parse, lines + more, name) == Settle(FirstB(parse, lines, name), FirstB(parse, more, name))
  {
    if lines == [] {
      assert lines + more == more;
    } else {
      assert (lines + more)[1..] == lines[1..] + more;
      FirstConcatB(parse, lines[1..], more, name);
    }
  }

  /** A phase keeps what it has, or gets its first delivery unless a broken line of any kind came before it. */
  lemma {:induction false} PhaseIsFirstB(parse: string -> Parsed, phases: Phases, lines: seq<string>, name: string)
    requires name in phases
    ensures var after := HearAllB(parse, phases, lines);
      name in after && after[name] == Settle(phases[name], FirstB(parse, lines, name))
    decreases |lines|
  {
    if lines != [] {
      PhaseIsFirstB(parse, HearB(parse, phases, lines[0]), lines[1..], name);
    }
  }

  lemma {:induction false} HearAKeys(parse: string -> Parsed, phases: Phases, lines: seq<string>)
    ensures HearAllA(parse, phases, lines).Keys == phases.Keys
    decreases |lines|
  {
    if lines != [] {
      HearAKeys(parse, HearA(parse, phases, lines[0]), lines[1..]);
    }
  }

  lemma HearACons(parse: string -> Parsed, phases: Phases, line: string, rest: seq<string>)
    ensures HearAllA(parse, phases, [line] + rest) == HearAllA(parse, HearA(parse, phases, line), rest)
  {
    assert ([line] + rest)[1..] == rest;
  }

  lemma {:induction false} HearBKeys(parse: string -> Parsed, phases: Phases, lines: seq<string>)
    ensures HearAllB(parse, phases, lines).Keys == phases.Keys
    decreases |lines|
  {
    if lines != [] {
      HearBKeys(parse, HearB(parse, phases, lines[0]), lines[1..]);
    }
  }

  lemma HearBCons(parse: string -> Parsed, phases: Phases, line: string, rest: seq<string>)
    ensures HearAllB(parse, phases, [line] + rest) == HearAllB(parse, HearB(parse, phases, line), rest)
  {
    assert ([line] + rest)[1..] == rest;
  }

  function Newline(s: string): (n: nat)
    ensures n <= |s| && (n < |s| ==> s[n] == '\n') && '\n' !in s[..n]
  {
    if s == "" || s[0] == '\n' then 0 else
    var n := 1 + Newline(s[1..]);
    assert s[..n] == [s[0]] + s[1..][..n - 1];
    n
  }

  /** The harness that fails only the malformed phase: a map of named phases and a buffer of unfinished output. */
  class PhaseMap {
    const parse: string -> Parsed
    const names: seq<string>
    var lines: string
    var phases: Phases
    ghost var heard: string
    ghost var closed: bool
    ghost var heardAtExit: string

    /** Everything a phase can be, told by the whole output alone. */
    ghost function Expected(name: string): Settled
      reads this
    {
      if closed then Settle(FirstA(parse, Lines(heardAtExit), name), Rejected(Exited))
        else FirstA(parse, Lines(heard), name)
    }

    ghost predicate Valid()
      reads this
    {
      lines == Tail(heard) && (forall k :: k in phases <==> k in names) && forall k :: k in phases ==>
        phases[k] == Expected(k)
    }

    constructor (parse: string -> Parsed, names: seq<string>)
      ensures Valid() && heard == "" && !closed && this.parse == parse && this.names == names
      ensures forall k :: k in phases ==> phases[k].Waiting?
    {
      this.parse, this.names := parse, names;
      lines, heard, closed, heardAtExit := "", "", false, "";
      phases := map k | k in names :: Waiting;
    }

    /** One line: every phase whose name heads it is resolved or rejected. */
    method Hear(line: string)
      requires forall k :: k in phases <==> k in names
      modifies this`phases
      ensures phases == HearA(parse, old(phases), line)
    {
      var i := 0;
      while i < |names|
        invariant i <= |names|
        invariant phases.Keys == old(phases).Keys
        invariant forall k :: k in phases ==>
          phases[k] == if k in names[..i] && Starts(line, k) then Settle(old(phases)[k], Verdict(parse, line, k))
          else old(phases)[k]
      {
        var name := names[i];
        if Starts(line, name) {
          phases := phases[name := Settle(phases[name], Verdict(parse, line, name))];
        }
        assert names[..i + 1] == names[..i] + [name];
        i := i + 1;
      }
      assert names[..i] == names;
    }

    /** Dispatch every complete line of the buffer and keep the rest. */
    method Drain()
      requires forall k :: k in phases <==> k in names
      modifies this`lines, this`phases
      ensures phases == HearAllA(parse, old(phases), Lines(old(lines))) && lines == Tail(old(lines))
    {
      ghost var goal := HearAllA(parse, phases, Lines(lines));
      var end := Newline(lines);
      while end < |lines|
        invariant end == Newline(lines)
        invariant (forall k :: k in phases <==> k in names) && goal == HearAllA(parse, phases, Lines(lines)) &&
          Tail(lines) == Tail(old(lines))
        decreases |lines|
      {
        var line, rest := lines[..end], lines[end + 1..];
        assert lines == line + "\n" + rest;
        FirstLine(line, rest);
        HearACons(parse, phases, line, Lines(rest));
        lines := rest;
        Hear(line);
        end := Newline(lines);
      }
      assert lines[..end] == lines;
      OpenText(lines);
    }

    /** A chunk of output, cut anywhere. */
    method OnData(part: string)
      requires Valid()
      modifies this`lines, this`phases, this`heard
      ensures Valid() && heard == old(heard) + part
    {
      var before := phases;
      lines := lines + part;
      Drain();
      heard := heard + part;
      LinesSplit(old(heard), part);
      forall k | k in before ensures k in phases && phases[k] == Expected(k) {
        PhaseIsFirstA(parse, before, Lines(Tail(old(heard)) + part), k);
        FirstConcatA(parse, Lines(old(heard)), Lines(Tail(old(heard)) + part), k);
      }
      HearAKeys(parse, before, Lines(Tail(old(heard)) + part));
    }

    /** The helper exits: whatever is still waiting is rejected, whatever was delivered stays. */
    method OnExit()
      requires Valid()
      modifies this`phases, this`closed, this`heardAtExit
      ensures Valid() && closed && phases.Keys == old(phases).Keys
      ensures forall k :: k in phases ==>
        phases[k] == if old(phases)[k].Waiting? then Rejected(Exited) else old(phases)[k]
    {
      phases := RejectAll(phases, Exited);
      heardAtExit := if closed then heardAtExit else heard;
      closed := true;
    }
  }

  lemma {:induction false} MeansOne(parse: string -> Parsed, line: string, tags: seq<string>, i: nat)
    requires i < |tags| && Starts(line, tags[i]) && forall j :: 0 <= j < i ==> !Starts(line, tags[j])
    ensures Means(parse, line, tags) == Under(parse, line, tags[i])
  {
    if i > 0 {
      MeansOne(parse, line, tags[1..], i - 1);
    }
  }

  lemma {:induction false} MeansNone(parse: string -> Parsed, line: string, tags: seq<string>)
    requires forall j :: 0 <= j < |tags| ==> !Starts(line, tags[j])
    ensures Means(parse, line, tags).Silent?
  {
    if tags != [] {
      MeansNone(parse, line, tags[1..]);
    }
  }

  lemma TagsPlain(i: nat, j: nat)
    requires i < |Tags()| && j < |Tags()|
    ensures Plain(Tags()[i]) && (Tags()[i] == Tags()[j] ==> i == j)
  {
  }

  /** The harness that fails every unsettled phase when one line breaks. */
  class CliHarness {
    const parse: string -> Parsed
    const names: set<string>
    var buffer: string
    var phases: Phases
    ghost var heard: string
    ghost var closed: bool
    ghost var heardAtExit: string

    ghost function Expected(name: string): Settled
      reads this
    {
      if closed then Settle(FirstB(parse, Lines(heardAtExit), name), Rejected(Exited))
        else FirstB(parse, Lines(heard), name)
    }

    ghost predicate Valid()
      reads this
    {
      buffer == Tail(heard) && phases.Keys == names && forall k :: k in phases ==>
        phases[k] == Expected(k)
    }

    constructor (parse: string -> Parsed)
      ensures Valid() && heard == "" && !closed && this.parse == parse
      ensures names == {"public", "result", "connection", "rejoinReady", "rejoinResult", "statusReady", "statusResult",
        "executeReady", "executeResult"}
      ensures phases.Keys == names && forall k :: k in phases ==> phases[k].Waiting?
    {
      this.parse := parse;
      var all := {"public", "result", "connection", "rejoinReady", "rejoinResult"} + NATIVE_PHASES;
      names := all;
      buffer, heard, closed, heardAtExit := "", "", false, "";
      phases := map k | k in all :: Waiting;
    }

    /** The chain of tests, in order; an exception in any of them rejects every phase still waiting. */
    method Hear(line: string)
      modifies this`phases
      ensures phases == HearB(parse, old(phases), line)
    {
      var tags := Tags();
      var i := 0;
      ghost var hit: nat := |tags|;
      while i < |tags|
        invariant i <= |tags| && (hit < i || hit == |tags|)
        invariant hit == |tags| ==> phases == old(phases) && forall j :: 0 <= j < i ==> !Starts(line, tags[j])
        invariant hit < i ==>
          Starts(line, tags[hit]) && Means(parse, line, tags) == Under(parse, line, tags[hit]) &&
          phases == HearB(parse, old(phases), line)
      {
        if Starts(line, tags[i]) {
          if hit < i {
            TagsPlain(hit, i);
            TagsPlain(i, hit);
            OneName(line, tags[hit], tags[i]);
          }
          MeansOne(parse, line, tags, i);
          hit := i;
          match Under(parse, line, tags[i])
          case Broken => phases := RejectAll(phases, BadLine); return;
          case Deliver(k, v) => phases := if k in phases then phases[k := Settle(phases[k], Resolved(v))] else phases;
          case Silent =>
        }
        i := i + 1;
      }
      if hit == |tags| {
        MeansNone(parse, line, tags);
      }
    }

    /** Dispatch every complete line of the buffer and keep the rest. */
    method Drain()
      modifies this`buffer, this`phases
      ensures phases == HearAllB(parse, old(phases), Lines(old(buffer))) && buffer == Tail(old(buffer))
    {
      ghost var goal := HearAllB(parse, phases, Lines(buffer));
      var newline := Newline(buffer);
      while newline < |buffer|
        invariant newline == Newline(buffer)
        invariant goal == HearAllB(parse, phases, Lines(buffer)) && Tail(buffer) == Tail(old(buffer))
        decreases |buffer|
      {
        var line, rest := buffer[..newline], buffer[newline + 1..];
        assert buffer == line + "\n" + rest;
        FirstLine(line, rest);
        HearBCons(parse, phases, line, Lines(rest));
        buffer := rest;
        Hear(line);
        newline := Newline(buffer);
      }
      assert buffer[..newline] == buffer;
      OpenText(buffer);
    }

    method OnData(part: string)
      requires Valid()
      modifies this`buffer, this`phases, this`heard
      ensures Valid() && heard == old(heard) + part
    {
      var before := phases;
      buffer := buffer + part;
      Drain();
      heard := heard + part;
      LinesSplit(old(heard), part);
      forall k | k in before ensures k in phases && phases[k] == Expected(k) {
        PhaseIsFirstB(parse, before, Lines(Tail(old(heard)) + part), k);
        FirstConcatB(parse, Lines(old(heard)), Lines(Tail(old(heard)) + part), k);
      }
      HearBKeys(parse, before, Lines(Tail(old(heard)) + part));
    }

    /** Exit, or failure to start: the race with the end rejects what is still waiting. */
    method OnEnd()
      requires Valid()
      modifies this`phases, this`closed, this`heardAtExit
      ensures Valid() && closed && phases.Keys == old(phases).Keys
      ensures forall k :: k in phases ==>
        phases[k] == if old(phases)[k].Waiting? then Rejected(Exited) else old(phases)[k]
    {
      phases := RejectAll(phases, Exited);
      heardAtExit := if closed then heardAtExit else heard;
      closed := true;
    }
  }
}
