/**
 Running an external command: the guards before it starts, the poll loop with its three ways out,
 the collectors that keep a bounded prefix of each stream, and the excerpt that is reported.
 The process, the clock and the cancel check are arbitrary functions of the iteration.
 */
module ExternalCommand {
  import opened Prelude
  import opened Text

  datatype Command = ShellText(text: string) | Argv(items: seq<string>) | Invalid

  datatype ErrorCode = CwdEscape | ShellDisabled | InvalidCommand | SpawnFailed | CancelledError | TimeoutError

  datatype CommandResult = CommandResult(
    returncode: Option<int>, ok: bool, cancelled: bool, errorCode: Option<ErrorCode>, stdout: string, stderr: string)

  /**
   What the surroundings do: `exits(k)`, `cancels(k)` and `clock(k)` are seen in iteration k of the
   loop, and the lines are those that a collector has read by the time it is joined.
   */
  datatype World = World(
    cwdEscapes: bool, allowShell: bool, cancelledBefore: bool, spawnFails: bool,
    exits: nat -> Option<int>, cancels: nat -> bool, start: real, clock: nat -> real,
    stdoutLines: seq<string>, stderrLines: seq<string>)

  /** Each `sleep(0.1)` lets the monotonic clock advance by at least 0.1 seconds. */
  ghost predicate ClockAdvances(w: World) {
    forall k: nat :: w.clock(k) >= w.start + k as real / 10.0
  }

  datatype Outcome = Exited(code: int) | CancelSeen | DeadlinePassed

  /** What iteration k decides; exit comes before cancel, and cancel before the deadline. */
  function Decision(w: World, timeout: nat, k: nat): Option<Outcome> {
    if w.exits(k).Some? then Some(Exited(w.exits(k).value))
    else if w.cancels(k) then Some(CancelSeen)
    else if w.clock(k) >= w.start + timeout as real then Some(DeadlinePassed)
    else None
  }

  /** An exit goes before a cancel and a cancel before the deadline, which is passed when it is reached. */
  lemma DecisionExact(w: World, timeout: nat, k: nat)
    ensures forall code :: Decision(w, timeout, k) == Some(Exited(code)) <==> w.exits(k) == Some(code)
    ensures Decision(w, timeout, k) == Some(CancelSeen) <==> w.exits(k) == None && w.cancels(k)
    ensures Decision(w, timeout, k) == Some(DeadlinePassed) <==>
              w.exits(k) == None && !w.cancels(k) && w.clock(k) - w.start >= timeout as real
  {}

  /** Iteration `n` is the first that decides, and it decides `o`. */
  ghost predicate FirstDecision(w: World, timeout: nat, n: nat, o: Outcome) {
    Decision(w, timeout, n) == Some(o) && forall k: nat :: k < n ==> Decision(w, timeout, k).None?
  }

  ghost predicate Ends(w: World, timeout: nat, o: Outcome) {
    exists n: nat :: FirstDecision(w, timeout, n, o)
  }

  /** The loop ends within 10 * timeout + 1 iterations, with the decision of the first that makes one. */
  method PollLoop(w: World, timeout: nat) returns (outcome: Outcome, iterations: nat)
    requires ClockAdvances(w)
    ensures 1 <= iterations <= 10 * timeout + 1
    ensures FirstDecision(w, timeout, iterations - 1, outcome)
  {
    var deadline := w.start + timeout as real;
    var k: nat := 0;
    while true
      invariant k <= 10 * timeout
      invariant forall j: nat :: j < k ==> Decision(w, timeout, j).None?
      decreases 10 * timeout + 1 - k
    {
      if w.exits(k).Some? {
        return Exited(w.exits(k).value), k + 1;
      }
      if w.cancels(k) {
        return CancelSeen, k + 1;
      }
      if w.clock(k) >= deadline {
        return DeadlinePassed, k + 1;
      }
      assert w.clock(k) >= w.start + k as real / 10.0;
      k := k + 1;
    }
  }

  /** There is exactly one outcome. */
  lemma OutcomeIsUnique(w: World, timeout: nat, n: nat, o: Outcome, n': nat, o': Outcome)
    requires FirstDecision(w, timeout, n, o) && FirstDecision(w, timeout, n', o')
    ensures n == n' && o == o'
  {}

  /** The iteration that decides, looked for from k on; the deadline has passed by iteration 10 * timeout. */
  function DecidingIteration(w: World, timeout: nat, k: nat): (n: nat)
    requires k <= 10 * timeout
    ensures k <= n <= 10 * timeout
    decreases 10 * timeout - k
  {
    if Decision(w, timeout, k).Some? || k == 10 * timeout then k else DecidingIteration(w, timeout, k + 1)
  }

  lemma {:induction false} LoopDecides(w: World, timeout: nat, k: nat)
    requires ClockAdvances(w) && k <= 10 * timeout && forall j: nat :: j < k ==> Decision(w, timeout, j).None?
    ensures var n := DecidingIteration(w, timeout, k);
            Decision(w, timeout, n).Some? && FirstDecision(w, timeout, n, Decision(w, timeout, n).value)
    decreases 10 * timeout - k
  {
    if Decision(w, timeout, k).None? {
      assert w.clock(k) >= w.start + k as real / 10.0;
      LoopDecides(w, timeout, k + 1);
    }
  }

  // ----- stream collectors -----

  function TotalLength(lines: seq<string>): nat {
    if lines == [] then 0 else TotalLength(lines[..|lines| - 1]) + |lines[|lines| - 1]|
  }

  function Joined(lines: seq<string>): string {
    if lines == [] then "" else Joined(lines[..|lines| - 1]) + lines[|lines| - 1]
  }

  /** Non-empty lines without their line ends, as handed to the log sink. */
  function Emitted(lines: seq<string>): seq<string> {
    if lines == [] then []
    else
      var stripped := RStripNewlines(lines[|lines| - 1]);
      Emitted(lines[..|lines| - 1]) + (if stripped == "" then [] else [stripped])
  }

  /** Kept text and emitted lines follow the order of the lines. */
  lemma {:induction false} JoinedAppends(a: seq<string>, b: seq<string>)
    ensures Joined(a + b) == Joined(a) + Joined(b)
    decreases |b|
  {
    if b == [] {
      assert a + b == a;
    } else {
      JoinedAppends(a, b[..|b| - 1]);
      assert (a + b)[..|a + b| - 1] == a + b[..|b| - 1];
    }
  }

  lemma {:induction false} EmittedAppends(a: seq<string>, b: seq<string>)
    ensures Emitted(a + b) == Emitted(a) + Emitted(b)
    decreases |b|
  {
    if b == [] {
      assert a + b == a;
    } else {
      EmittedAppends(a, b[..|b| - 1]);
      assert (a + b)[..|a + b| - 1] == a + b[..|b| - 1];
    }
  }

  lemma OneIsKept(text: string)
    ensures Joined([text]) == text && TotalLength([text]) == |text|
  {
    assert [text][..0] == [];
  }

  lemma StripsOne(line: string, c: char)
    requires c == '\n' || c == '\r'
    ensures RStripNewlines(line + [c]) == RStripNewlines(line)
  {
    assert (line + [c])[..|line|] == line;
  }

  /** A line is emitted without its line end, and an empty one not at all. */
  lemma OneIsEmitted(line: string, text: string)
    requires line == "" || (line[|line| - 1] != '\n' && line[|line| - 1] != '\r')
    requires text == line || text == line + ['\n'] || text == line + ['\r'] + ['\n']
    ensures Emitted([text]) == if line == "" then [] else [line]
  {
    StripsOne(line, '\n');
    StripsOne(line, '\r');
    StripsOne(line + ['\r'], '\n');
    assert RStripNewlines(line) == line;
    assert [text][..0] == [];
  }

  /**
   The kept chunks are whole lines, the shortest prefix that reaches `cap` characters, or everything
   when the output never reaches it.
   */
  ghost predicate ShortestPrefix(kept: seq<string>, lines: seq<string>, cap: nat) {
    && kept <= lines
    && (kept == lines || TotalLength(kept) >= cap)
    && (kept != [] ==> TotalLength(kept[..|kept| - 1]) < cap)
  }

  lemma KeepsOneMore(kept: seq<string>, lines: seq<string>, i: nat, cap: nat)
    requires i < |lines| && ShortestPrefix(kept, lines[..i], cap) && TotalLength(kept) < cap
    ensures ShortestPrefix(kept + [lines[i]], lines[..i + 1], cap)
    ensures TotalLength(kept + [lines[i]]) == TotalLength(kept) + |lines[i]|
  {
    var more := kept + [lines[i]];
    assert more[..|more| - 1] == kept;
    assert more == lines[..i + 1];
  }

  lemma KeepsEnough(kept: seq<string>, lines: seq<string>, i: nat, cap: nat)
    requires i < |lines| && ShortestPrefix(kept, lines[..i], cap) && TotalLength(kept) >= cap
    ensures ShortestPrefix(kept, lines[..i + 1], cap)
  {
    assert lines[..i] <= lines[..i + 1];
  }

  lemma EmitsOneMore(lines: seq<string>, i: nat)
    requires i < |lines|
    ensures var stripped := RStripNewlines(lines[i]);
            Emitted(lines[..i + 1]) == Emitted(lines[..i]) + (if stripped == "" then [] else [stripped])
  {
    assert lines[..i + 1][..i] == lines[..i];
  }

  class StreamCollector {
    const limit: nat
    var chunks: seq<string>
    var size: nat

    constructor (limit: nat)
      ensures this.limit == limit && chunks == [] && size == 0
    {
      this.limit := limit;
      chunks := [];
      size := 0;
    }

    method Pump(lines: seq<string>) returns (emitted: seq<string>)
      requires chunks == [] && size == 0
      modifies this
      ensures ShortestPrefix(chunks, lines, 4 * limit) && size == TotalLength(chunks)
      ensures emitted == Emitted(lines)
    {
      emitted := [];
      var i := 0;
      while i < |lines|
        invariant 0 <= i <= |lines|
        invariant ShortestPrefix(chunks, lines[..i], 4 * limit) && size == TotalLength(chunks)
        invariant emitted == Emitted(lines[..i])
      {
        EmitsOneMore(lines, i);
        if size < limit * 4 {
          KeepsOneMore(chunks, lines, i, 4 * limit);
          chunks := chunks + [lines[i]];
          size := size + |lines[i]|;
        } else {
          KeepsEnough(chunks, lines, i, 4 * limit);
        }
        var stripped := RStripNewlines(lines[i]);
        if stripped != "" {
          emitted := emitted + [stripped];
        }
        i := i + 1;
      }
      assert lines[..i] == lines;
    }

    method Contents() returns (text: string)
      ensures text == Joined(chunks)
    {
      text := "";
      var i := 0;
      while i < |chunks|
        invariant 0 <= i <= |chunks| && text == Joined(chunks[..i])
      {
        assert chunks[..i + 1][..i] == chunks[..i];
        text := text + chunks[i];
        i := i + 1;
      }
      assert chunks[..i] == chunks;
    }
  }

  /** The prefix is unique, so the contract of the collector determines what it keeps. */
  lemma ShortestPrefixIsUnique(a: seq<string>, b: seq<string>, lines: seq<string>, cap: nat)
    requires ShortestPrefix(a, lines, cap) && ShortestPrefix(b, lines, cap)
    ensures a == b
  {
    if |a| < |b| {
      ShorterIsSmaller(a, b[..|b| - 1]);
    } else if |b| < |a| {
      ShorterIsSmaller(b, a[..|a| - 1]);
    }
  }

  lemma {:induction false} ShorterIsSmaller(a: seq<string>, b: seq<string>)
    requires a <= b
    ensures TotalLength(a) <= TotalLength(b)
    decreases |b|
  {
    if a != b {
      ShorterIsSmaller(a, b[..|b| - 1]);
    }
  }

  // ----- the excerpt -----

  const MARKER := "\n...[中间日志已截断]...\n"

  /** Python's `s[-n:]`: a zero offset is not a slice from the end but the whole string. */
  function LastChars(s: string, n: nat): string {
    if n == 0 || n >= |s| then s else s[|s| - n..]
  }

  function TruncateLog(value: Option<string>, limit: nat): string
    requires limit >= 1
  {
    if value.None? then ""
    else
      var text := Strip(value.value);
      if |text| <= limit then text
      else
        var head := if limit / 5 >= 1 then limit / 5 else 1;
        text[..head] + MARKER + LastChars(text, limit - head)
  }

  /** For a limit of at least two, a cut text shows its first fifth and fills the limit from its end. */
  lemma ExcerptKeepsBothEnds(value: string, limit: nat)
    requires limit >= 2 && |Strip(value)| > limit
    ensures var text, head := Strip(value), if limit < 10 then 1 else limit / 5;
            && 1 <= head < limit
            && TruncateLog(Some(value), limit) == text[..head] + MARKER + text[|text| - (limit - head)..]
  {}

  /** The excerpt respects its bound exactly when the limit is not one or nothing had to be cut. */
  lemma ExcerptBoundExact(value: string, limit: nat)
    requires limit >= 1
    ensures |TruncateLog(Some(value), limit)| <= limit + |MARKER| <==> limit >= 2 || |Strip(value)| <= limit
  {}

  // ----- the whole call -----

  /** Why the command is not started, in the order of the checks. */
  function Refusal(w: World, c: Command): Option<ErrorCode> {
    if w.cwdEscapes then Some(CwdEscape)
    else if c.ShellText? && !w.allowShell then Some(ShellDisabled)
    else if c.Invalid? || (c.Argv? && c.items == []) then Some(InvalidCommand)
    else if w.cancelledBefore then Some(CancelledError)
    else if w.spawnFails then Some(SpawnFailed)
    else None
  }

  /** The directory is inside the workspace, and there is a command that may be started. */
  predicate Startable(w: World, c: Command) {
    !w.cwdEscapes && ((c.ShellText? && w.allowShell) || (c.Argv? && |c.items| > 0))
  }

  /** The answers of the cancel check, in the order in which a command that gets that far asks for them. */
  function Answer(w: World, j: nat): bool {
    if j == 0 then w.cancelledBefore else w.cancels(j - 1)
  }

  /** How often a loop that iteration n ends has asked, with the question before it started. */
  function Asks(n: nat, o: Outcome): nat {
    if o.Exited? then n + 1 else n + 2
  }

  /** How often the command asks the cancel check. */
  function Questions(w: World, c: Command, timeout: nat): nat {
    match Refusal(w, c)
    case Some(CancelledError) => 1
    case Some(SpawnFailed) => 1
    case Some(_) => 0
    case None =>
      var n := DecidingIteration(w, timeout, 0);
      if Decision(w, timeout, n).Some? then Asks(n, Decision(w, timeout, n).value) else 0
  }

  /** The command is started, and its first decisive iteration sees exit code 0. */
  ghost predicate Succeeds(w: World, c: Command, timeout: nat) {
    Refusal(w, c).None? && Ends(w, timeout, Exited(0))
  }

  lemma OnlyTheLastAnswerCanBeYes(w: World, timeout: nat, n: nat, o: Outcome)
    requires FirstDecision(w, timeout, n, o) && !w.cancelledBefore
    ensures forall j: nat :: j + 1 < Asks(n, o) ==> !Answer(w, j)
    ensures o.CancelSeen? <==> Answer(w, Asks(n, o) - 1)
  {
    forall j: nat | j + 1 < Asks(n, o) ensures !Answer(w, j) {
      assert j > 0 ==> Decision(w, timeout, j - 1).None?;
    }
    assert o.Exited? && n > 0 ==> Decision(w, timeout, n - 1).None?;
  }

  lemma AsksAreQuestions(w: World, c: Command, timeout: nat, n: nat, o: Outcome)
    requires ClockAdvances(w) && Refusal(w, c).None? && FirstDecision(w, timeout, n, o)
    ensures Asks(n, o) == Questions(w, c, timeout)
  {
    LoopDecides(w, timeout, 0);
    var k := DecidingIteration(w, timeout, 0);
    OutcomeIsUnique(w, timeout, n, o, k, Decision(w, timeout, k).value);
  }

  method Excerpts(w: World, limit: nat) returns (out: string, err: string)
    requires limit >= 1
    ensures exists kept :: ShortestPrefix(kept, w.stdoutLines, 4 * limit)
              && out == TruncateLog(Some(Joined(kept)), limit)
    ensures exists kept :: ShortestPrefix(kept, w.stderrLines, 4 * limit)
              && err == TruncateLog(Some(Joined(kept)), limit)
  {
    var stdout := new StreamCollector(limit);
    var stderr := new StreamCollector(limit);
    var _ := stdout.Pump(w.stdoutLines);
    var _ := stderr.Pump(w.stderrLines);
    var outText := stdout.Contents();
    var errText := stderr.Contents();
    out, err := TruncateLog(Some(outText), limit), TruncateLog(Some(errText), limit);
  }

  /**
   A command succeeds exactly when it was started and its first decisive iteration saw exit code 0;
   it is reported cancelled exactly when the cancel check said so before or in that iteration, and
   after a yes it does not ask again.
   */
  method RunExternalCommand(w: World, c: Command, timeout: nat, limit: nat) returns (r: CommandResult, asks: nat)
    requires ClockAdvances(w) && limit >= 1
    ensures r.ok <==> Succeeds(w, c, timeout)
    ensures r.cancelled <==>
              Refusal(w, c) == Some(CancelledError) || (Refusal(w, c).None? && Ends(w, timeout, CancelSeen))
    ensures r.errorCode == Some(TimeoutError) <==> Refusal(w, c).None? && Ends(w, timeout, DeadlinePassed)
    ensures forall code :: r.returncode == Some(code) <==> Refusal(w, c).None? && Ends(w, timeout, Exited(code))
    ensures Refusal(w, c).Some? ==> r.errorCode == Refusal(w, c) && r.stdout == ""
    ensures w.cwdEscapes ==> r.errorCode == Some(CwdEscape) && asks == 0
    ensures !w.cwdEscapes && c.ShellText? && !w.allowShell ==> r.errorCode == Some(ShellDisabled) && asks == 0
    ensures !w.cwdEscapes && (c.Invalid? || c == Argv([])) ==> r.errorCode == Some(InvalidCommand) && asks == 0
    ensures Startable(w, c) && w.cancelledBefore ==> r.errorCode == Some(CancelledError) && asks == 1
    ensures Startable(w, c) && !w.cancelledBefore && w.spawnFails ==> r.errorCode == Some(SpawnFailed) && asks == 1
    ensures Startable(w, c) && !w.cancelledBefore && !w.spawnFails && w.exits(0).Some? ==>
              r.returncode == w.exits(0) && asks == 1
    ensures asks == Questions(w, c, timeout)
    ensures r.cancelled <==> asks > 0 && Answer(w, asks - 1)
    ensures forall j: nat :: j + 1 < asks ==> !Answer(w, j)
    ensures r.cancelled ==> !r.ok && r.errorCode == Some(CancelledError)
    ensures r.ok ==> r.errorCode.None?
    ensures Refusal(w, c).None? ==>
              exists kept :: ShortestPrefix(kept, w.stdoutLines, 4 * limit)
                && r.stdout == TruncateLog(Some(Joined(kept)), limit)
    ensures Refusal(w, c).None? ==>
              exists kept :: ShortestPrefix(kept, w.stderrLines, 4 * limit)
                && (r.stderr == TruncateLog(Some(Joined(kept)), limit)
                     || (TruncateLog(Some(Joined(kept)), limit) == "" && r.returncode.None?))
  {
    var refusal := Refusal(w, c);
    if refusal.Some? {
      r := CommandResult(None, false, refusal.value.CancelledError?, refusal, "", "refused");
      asks := if refusal.value.CancelledError? || refusal.value.SpawnFailed? then 1 else 0;
      return;
    }
    var outcome, iterations := PollLoop(w, timeout);
    assert FirstDecision(w, timeout, iterations - 1, outcome);
    forall n: nat, o | FirstDecision(w, timeout, n, o) ensures o == outcome {
      OutcomeIsUnique(w, timeout, n, o, iterations - 1, outcome);
    }
    asks := Asks(iterations - 1, outcome);
    AsksAreQuestions(w, c, timeout, iterations - 1, outcome);
    OnlyTheLastAnswerCanBeYes(w, timeout, iterations - 1, outcome);
    var out, err := Excerpts(w, limit);
    match outcome
    case Exited(code) => r := CommandResult(Some(code), code == 0, false, None, out, err);
    case CancelSeen => r := CommandResult(None, false, true, Some(CancelledError), out,
        if err == "" then "cancelled" else err);
    case DeadlinePassed => r := CommandResult(None, false, false, Some(TimeoutError), out,
        if err == "" then "timed out" else err);
  }
}
