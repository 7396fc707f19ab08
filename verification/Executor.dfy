/** `run_program`: demultiplexing the exec socket, reading the resource line, choosing the verdict. */
module Executor {
  import opened JudgeTypes
  import opened Strings
  import opened OutputComparison

  newtype Byte = x: int | 0 <= x < 256

  datatype Frame = Frame(stream: int, payload: seq<Byte>)

  datatype RunResult = RunResult(
    ok: bool, verdict: Verdict, output: string, exitCode: int, runtimeMs: int, memoryKb: int)

  /** What Docker hands back for one execution. */
  datatype Execution = Execution(frames: seq<Frame>, exitCode: int)

  datatype Limits = Limits(seconds: int, memoryKb: int)

  // ----- the socket -----

  /** The bytes of one stream, in order. */
  function Stream(frames: seq<Frame>, id: int): seq<Byte> {
    if frames == [] then []
    else (if frames[0].stream == id then frames[0].payload else []) + Stream(frames[1..], id)
  }

  function Flatten(chunks: seq<seq<Byte>>): seq<Byte> {
    if chunks == [] then [] else chunks[0] + Flatten(chunks[1..])
  }

  lemma {:induction false} FlattenAppend(chunks: seq<seq<Byte>>, c: seq<Byte>)
    ensures Flatten(chunks + [c]) == Flatten(chunks) + c
  {
    if chunks == [] {
      assert (chunks + [c])[1..] == [];
    } else {
      assert (chunks + [c])[1..] == chunks[1..] + [c];
      FlattenAppend(chunks[1..], c);
    }
  }

  lemma {:induction false} StreamConcat(a: seq<Frame>, b: seq<Frame>, id: int)
    ensures Stream(a + b, id) == Stream(a, id) + Stream(b, id)
  {
    if a == [] {
      assert a + b == b;
    } else {
      assert (a + b)[1..] == a[1..] + b;
      StreamConcat(a[1..], b, id);
    }
  }

  /** The loop over frames_iter: payloads of stream 1 and of stream 2 go to two lists, others nowhere. */
  method Demultiplex(frames: seq<Frame>) returns (stdout: seq<Byte>, stderr: seq<Byte>)
    ensures stdout == Stream(frames, 1) && stderr == Stream(frames, 2)
  {
    var stdoutChunks, stderrChunks := [], [];
    for k := 0 to |frames|
      invariant Flatten(stdoutChunks) == Stream(frames[..k], 1)
      invariant Flatten(stderrChunks) == Stream(frames[..k], 2)
    {
      var f := frames[k];
      assert frames[..k + 1] == frames[..k] + [f];
      StreamConcat(frames[..k], [f], 1);
      StreamConcat(frames[..k], [f], 2);
      if f.stream == 1 {
        FlattenAppend(stdoutChunks, f.payload);
        stdoutChunks := stdoutChunks + [f.payload];
      } else if f.stream == 2 {
        FlattenAppend(stderrChunks, f.payload);
        stderrChunks := stderrChunks + [f.payload];
      }
    }
    assert frames[..|frames|] == frames;
    stdout, stderr := Flatten(stdoutChunks), Flatten(stderrChunks);
  }

  lemma StreamOfTwo(f: Frame, g: Frame, id: int)
    ensures Stream([f, g], id) == (if f.stream == id then f.payload else []) + (if g.stream == id then g.payload else [])
  {
    assert [f, g][1..] == [g] && [g][1..] == [];
    var tail := if g.stream == id then g.payload else [];
    assert Stream([g], id) == tail + Stream([], id) == tail;
  }

  lemma StreamBetween(a: seq<Frame>, m: seq<Frame>, b: seq<Frame>, id: int)
    ensures Stream(a + m + b, id) == Stream(a, id) + Stream(m, id) + Stream(b, id)
  {
    StreamConcat(a + m, b, id);
    StreamConcat(a, m, id);
  }

  /** How the daemon cuts a stream into frames leaves no trace ... */
  lemma CuttingIsInvisible(a: seq<Frame>, b: seq<Frame>, i: int, p: seq<Byte>, q: seq<Byte>, id: int)
    ensures Stream(a + [Frame(i, p + q)] + b, id) == Stream(a + [Frame(i, p), Frame(i, q)] + b, id)
  {
    StreamBetween(a, [Frame(i, p + q)], b, id);
    StreamBetween(a, [Frame(i, p), Frame(i, q)], b, id);
    StreamOfTwo(Frame(i, p), Frame(i, q), id);
    assert [Frame(i, p + q)][1..] == [];
    assert Stream([Frame(i, p + q)], id) == Stream([Frame(i, p), Frame(i, q)], id);
  }

  /** ... and neither does how it interleaves two streams. */
  lemma InterleavingIsInvisible(a: seq<Frame>, b: seq<Frame>, f: Frame, g: Frame, id: int)
    requires f.stream != g.stream
    ensures Stream(a + [f, g] + b, id) == Stream(a + [g, f] + b, id)
  {
    StreamBetween(a, [f, g], b, id);
    StreamBetween(a, [g, f], b, id);
    StreamOfTwo(f, g, id);
    StreamOfTwo(g, f, id);
    assert Stream([f, g], id) == Stream([g, f], id);
  }

  // ----- the resource line -----

  datatype Stats = Stats(seconds: nat, memoryKb: nat)

  /** The last complete line of stderr, its first word as seconds and its second as kilobytes. Missing
      lines or words are index errors, anything that is no number is a value error. */
  function ParseStats(stderr: string): Outcome<Stats> {
    var lines := SplitOn('\n', stderr);
    if |lines| < 2 then Raised(OtherError)
    else
      var words := Split(lines[|lines| - 2]);
      if words == [] then Raised(OtherError)
      else
        match ParseSeconds(words[0])
        case Raised(e) => Raised(e)
        case Returned(seconds) =>
          if |words| < 2 then Raised(OtherError)
          else
            match ParseInt(words[1])
            case Raised(e) => Raised(e)
            case Returned(kb) => Returned(Stats(seconds, kb))
  }

  /** What `/usr/bin/time -f '%e %M'` writes. */
  function StatsLine(seconds: nat, fraction: string, memoryKb: nat): string {
    Numeral(seconds) + "." + fraction + " " + Numeral(memoryKb)
  }

  lemma DigitsAreNotSpace(s: string)
    requires Digits(s)
    ensures Word(s) && '\n' !in s
  {
  }

  lemma WordsOfStatsLine(seconds: nat, fraction: string, memoryKb: nat)
    requires Digits(fraction)
    ensures Split(StatsLine(seconds, fraction, memoryKb)) == [Numeral(seconds) + "." + fraction, Numeral(memoryKb)]
    ensures '\n' !in StatsLine(seconds, fraction, memoryKb)
  {
    var a, b := Numeral(seconds) + "." + fraction, Numeral(memoryKb);
    DigitsAreNotSpace(Numeral(seconds));
    DigitsAreNotSpace(fraction);
    DigitsAreNotSpace(b);
    assert Word(a);
    SplitAtBlank(a, " ", b);
    SplitTakesWord(a, []);
    SplitTakesWord(b, []);
    assert a + [] == a && b + [] == b;
  }

  /** Whatever complete lines come before it, the resource line is the one that is read, exactly. */
  lemma StatsAreRead(before: string, seconds: nat, fraction: string, memoryKb: nat)
    requires before == [] || before[|before| - 1] == '\n'
    requires Digits(fraction)
    ensures ParseStats(before + StatsLine(seconds, fraction, memoryKb) + "\n") == Returned(Stats(seconds, memoryKb))
  {
    var line := StatsLine(seconds, fraction, memoryKb);
    WordsOfStatsLine(seconds, fraction, memoryKb);
    SplitWithout('\n', line);
    SplitAt('\n', line, []);
    assert line + "\n" + [] == line + "\n";
    assert SplitOn('\n', line + "\n") == [line, []];
    if before == [] {
      assert before + line + "\n" == line + "\n";
    } else {
      var b := before[..|before| - 1];
      SplitAt('\n', b, line + "\n");
      assert before + line + "\n" == b + ['\n'] + (line + "\n");
    }
    ParsesSeconds(seconds, fraction);
    ParsesNumeral(memoryKb);
  }

  // ----- the verdict -----

  function VerdictOf(memoryKb: int, memoryLimit: int, exitCode: int, output: string, expected: string): Verdict {
    if memoryKb == memoryLimit then MEMORY_LIMIT_EXCEEDED
    else if exitCode == 124 || exitCode == 137 then TIME_LIMIT_EXCEEDED
    else if exitCode != 0 then RUNTIME_ERROR
    else if Norm(output) == Norm(expected) then ACCEPTED
    else WRONG_ANSWER
  }

  function RunOutcome(decode: seq<Byte> -> string, x: Execution, expected: string, limits: Limits): Outcome<RunResult> {
    var output := decode(Stream(x.frames, 1));
    match ParseStats(decode(Stream(x.frames, 2)))
    case Raised(e) => Raised(e)
    case Returned(stats) =>
      var kb := Min(stats.memoryKb, limits.memoryKb);
      var verdict := VerdictOf(kb, limits.memoryKb, x.exitCode, output, expected);
      Returned(RunResult(verdict == ACCEPTED, verdict, output, x.exitCode, Min(stats.seconds, limits.seconds * 1000), kb))
  }

  /** run_program, from the socket on. `decode` is bytes.decode("utf-8", errors="replace"). */
  method RunProgram(decode: seq<Byte> -> string, x: Execution, expected: string, limits: Limits)
    returns (r: Outcome<RunResult>)
    ensures r == RunOutcome(decode, x, expected, limits)
  {
    var stdout, stderr := Demultiplex(x.frames);
    var output := decode(stdout);
    var parsed := ParseStats(decode(stderr));
    if parsed.Raised? {
      return Raised(parsed.error);
    }
    var elapsed := Min(parsed.value.seconds, limits.seconds * 1000);
    var used := Min(parsed.value.memoryKb, limits.memoryKb);
    var verdict;
    if used == limits.memoryKb {
      verdict := MEMORY_LIMIT_EXCEEDED;
    } else if x.exitCode in {124, 137} {
      verdict := TIME_LIMIT_EXCEEDED;
    } else if x.exitCode != 0 {
      verdict := RUNTIME_ERROR;
    } else {
      verdict := if Norm(output) == Norm(expected) then ACCEPTED else WRONG_ANSWER;
    }
    r := Returned(RunResult(verdict == ACCEPTED, verdict, output, x.exitCode, elapsed, used));
  }

  /** What one run reports, in the terms of its limits. */
  predicate Faithful(r: RunResult, expected: string, limits: Limits) {
    && r.memoryKb <= limits.memoryKb && (r.memoryKb == limits.memoryKb <==> r.verdict == MEMORY_LIMIT_EXCEEDED)
    && (if limits.memoryKb >= 0 then r.memoryKb >= 0 else r.memoryKb == limits.memoryKb)
    && r.runtimeMs <= 1000 * limits.seconds && (limits.seconds >= 0 ==> r.runtimeMs >= 0)
    && (r.verdict == TIME_LIMIT_EXCEEDED <==> r.memoryKb < limits.memoryKb && (r.exitCode == 124 || r.exitCode == 137))
    && (r.ok <==> r.verdict == ACCEPTED)
    && (r.ok <==> r.memoryKb < limits.memoryKb && r.exitCode == 0 && Split(r.output) == Split(expected))
    && r.verdict != PENDING && r.verdict != COMPILATION_ERROR
  }

  /** A run that reports at all reports faithfully, and it reports exactly when the resource line parses. */
  lemma RunsAreFaithful(decode: seq<Byte> -> string, x: Execution, expected: string, limits: Limits)
    ensures var r := RunOutcome(decode, x, expected, limits);
            && (r.Returned? <==> ParseStats(decode(Stream(x.frames, 2))).Returned?)
            && (r.Returned? ==> Faithful(r.value, expected, limits))
  {
    NormIsWordEquality(decode(Stream(x.frames, 1)), expected);
  }

  // ----- from the execution to the report -----

  lemma LineAndTail(line: string, tail: string)
    requires '\n' !in line && '\n' !in tail
    ensures SplitOn('\n', line + ['\n'] + tail) == [line, tail]
  {
    SplitWithout('\n', line);
    SplitWithout('\n', tail);
    SplitAt('\n', line, tail);
  }

  /** What is read is the last complete line, whatever comes before it and whatever incomplete line after it. */
  lemma LastLineIsRead(before: string, line: string, tail: string)
    requires before == [] || before[|before| - 1] == '\n'
    requires '\n' !in line && '\n' !in tail
    ensures var lines := SplitOn('\n', before + line + "\n" + tail); |lines| >= 2 && lines[|lines| - 2] == line
  {
    LineAndTail(line, tail);
    hide SplitOn;
    if before == [] {
      assert before + line + "\n" + tail == line + ['\n'] + tail;
    } else {
      var b := before[..|before| - 1];
      SplitAt('\n', b, line + ['\n'] + tail);
      assert before == b + ['\n'];
      assert before + line + "\n" + tail == b + ['\n'] + (line + ['\n'] + tail);
    }
  }

  /** How a missing or broken resource line ends: without a complete line, or with too few words in it, by an
      index error; with a word that is no number, by a ValueError. */
  lemma BrokenStats(before: string, line: string, tail: string)
    requires before == [] || before[|before| - 1] == '\n'
    requires '\n' !in line && '\n' !in tail
    ensures ParseStats(tail) == Raised(OtherError)
    ensures var words, r := Split(line), ParseStats(before + line + "\n" + tail);
            && (words == [] ==> r == Raised(OtherError))
            && (words != [] && ParseSeconds(words[0]).Raised? ==> r == Raised(ValueError))
            && (|words| == 1 && ParseSeconds(words[0]).Returned? ==> r == Raised(OtherError))
            && (|words| > 1 && ParseSeconds(words[0]).Returned? && ParseInt(words[1]).Raised? ==> r == Raised(ValueError))
  {
    LastLineIsRead(before, line, tail);
    SplitWithout('\n', tail);
  }

  /** The report of a run whose stderr ends with the line of /usr/bin/time, from the execution itself: the
      memory it used decides first, then its exit code, then the words of what it printed. */
  lemma RunIsReported(decode: seq<Byte> -> string, x: Execution, expected: string, limits: Limits,
                      before: string, seconds: nat, fraction: string, kb: nat)
    requires (before == [] || before[|before| - 1] == '\n') && Digits(fraction)
    requires decode(Stream(x.frames, 2)) == before + StatsLine(seconds, fraction, kb) + "\n"
    ensures RunOutcome(decode, x, expected, limits).Returned?
    ensures var r := RunOutcome(decode, x, expected, limits).value;
            && r.output == decode(Stream(x.frames, 1)) && r.exitCode == x.exitCode
            && r.memoryKb == Min(kb, limits.memoryKb) && r.runtimeMs == Min(seconds, 1000 * limits.seconds)
            && (r.verdict == MEMORY_LIMIT_EXCEEDED <==> kb >= limits.memoryKb)
            && (kb < limits.memoryKb ==>
                  && (r.verdict == TIME_LIMIT_EXCEEDED <==> x.exitCode == 124 || x.exitCode == 137)
                  && (r.verdict == RUNTIME_ERROR <==> x.exitCode != 124 && x.exitCode != 137 && x.exitCode != 0)
                  && (r.verdict == ACCEPTED <==> x.exitCode == 0 && Split(decode(Stream(x.frames, 1))) == Split(expected))
                  && (r.verdict == WRONG_ANSWER <==> x.exitCode == 0 && Split(decode(Stream(x.frames, 1))) != Split(expected)))
            && (r.ok <==> r.verdict == ACCEPTED)
  {
    StatsAreRead(before, seconds, fraction, kb);
    NormIsWordEquality(decode(Stream(x.frames, 1)), expected);
    hide ParseStats, Norm, Split, StatsLine, Stream;
  }
}
