/**
 * The transcription invoker: each attempt writes a Python script, runs it,
 * checks its stderr, reads and parses the output file and deletes the two
 * temporary files; a failure whose message looks like a JSON NaN error is
 * retried with one retry fewer, any other failure is wrapped once and thrown.
 *
 * The script, the subprocess and the clock are outside the model: what one
 * attempt observes is an `Attempt` value supplied by an oracle.
 */
module TranscriptionService {
  import opened Wrappers
  import opened Strings
  import opened Json

  // ------------------------------------------------ the generated script

  /** The arguments the generated script passes to `transcribe_audio` and to `get_transcription_text`. */
  datatype Calls = Calls(transcribeArgs: seq<string>, textArgs: seq<string>)


  /** A truthy whisper model is passed to both calls; otherwise both use their own default. */
  function ScriptCalls(audioPath: string, whisperModel: Option<string>): (c: Calls)
    ensures c.transcribeArgs == c.textArgs
    ensures |c.transcribeArgs| >= 1 && c.transcribeArgs[0] == audioPath
    ensures |c.transcribeArgs| == 2 <==> Truthy(whisperModel)
    ensures |c.transcribeArgs| == 2 ==> c.transcribeArgs[1] == whisperModel.value
  {
    if Truthy(whisperModel) then Calls([audioPath, whisperModel.value], [audioPath, whisperModel.value])
    else Calls([audioPath], [audioPath])
  }

  // ------------------------------------------------- NaN repair (regex)

  /** Length of the run of `\s` characters at the head of `s`. */
  function WsRun(s: string): (n: nat)
    ensures n <= |s|
    ensures forall i :: 0 <= i < n ==> IsPySpace(s[i])
    ensures n == |s| || !IsPySpace(s[n])
    decreases |s|
  {
    if |s| > 0 && IsPySpace(s[0]) then 1 + WsRun(s[1..]) else 0
  }

  /** The pattern `:\s*NaN` matches at the head of `s` (greedy `\s*` cannot help by giving back whitespace). */
  predicate MatchAt(s: string) {
    |s| > 0 && s[0] == ':' && StartsWith(s[1 + WsRun(s[1..])..], "NaN")
  }

  /** The pattern matches somewhere in `s`. */
  predicate AnyMatch(s: string)
    decreases |s|
  {
    |s| > 0 && (MatchAt(s) || AnyMatch(s[1..]))
  }

  /** `re.sub(r':\s*NaN', ': null', s)`: a left-to-right scan replacing each match. */
  function RepairNaN(s: string): (r: string)
    decreases |s|
  {
    if |s| == 0 then ""
    else if MatchAt(s) then ": null" + RepairNaN(s[1 + WsRun(s[1..]) + 3..])
    else [s[0]] + RepairNaN(s[1..])
  }

  /** Text without a match is returned unchanged. */
  lemma {:induction false} RepairNaNNoMatch(s: string)
    requires !AnyMatch(s)
    ensures RepairNaN(s) == s
    decreases |s|
  {
    if |s| > 0 {
      RepairNaNNoMatch(s[1..]);
      assert s == [s[0]] + s[1..];
    }
  }

  /** A repaired text never starts with something else than the original at a position that is not a colon. */
  lemma RepairNaNHead(t: string)
    requires |RepairNaN(t)| > 0 && RepairNaN(t)[0] != ':'
    ensures |t| > 0 && t[0] == RepairNaN(t)[0] && RepairNaN(t) == [t[0]] + RepairNaN(t[1..])
  {
  }

  lemma RepairNaNKeepsNaN(t: string)
    requires StartsWith(RepairNaN(t), "NaN")
    ensures StartsWith(t, "NaN")
  {
    RepairNaNHead(t);
    var r1 := RepairNaN(t[1..]);
    assert r1 == RepairNaN(t)[1..] && r1[0] == 'a';
    RepairNaNHead(t[1..]);
    var r2 := RepairNaN(t[1..][1..]);
    assert r2 == r1[1..] && r2[0] == 'N';
    RepairNaNHead(t[1..][1..]);
    assert t[1..][1..][0] == 'N';
  }

  /** If `NaN` follows the whitespace at the head of a repaired text, it followed that of the original. */
  lemma {:induction false} RepairNaNAfterWs(t: string)
    requires StartsWith(RepairNaN(t)[WsRun(RepairNaN(t))..], "NaN")
    ensures StartsWith(t[WsRun(t)..], "NaN")
    decreases |t|
  {
    var r := RepairNaN(t);
    if |t| > 0 && IsPySpace(t[0]) {
      assert r == [t[0]] + RepairNaN(t[1..]);
      assert r[1..] == RepairNaN(t[1..]);
      assert WsRun(r) == 1 + WsRun(RepairNaN(t[1..]));
      assert r[WsRun(r)..] == RepairNaN(t[1..])[WsRun(RepairNaN(t[1..]))..];
      RepairNaNAfterWs(t[1..]);
      assert t[WsRun(t)..] == t[1..][WsRun(t[1..])..];
    } else {
      assert WsRun(t) == 0;
      if |r| > 0 && IsPySpace(r[0]) {
        RepairNaNHead(t);
      }
      assert WsRun(r) == 0;
      RepairNaNKeepsNaN(t);
    }
  }

  /** After the repair no `:\s*NaN` is left: the replacement itself never forms a new match. */
  lemma {:induction false} RepairNaNComplete(s: string)
    ensures !AnyMatch(RepairNaN(s))
    decreases |s|
  {
    if |s| > 0 {
      var r := RepairNaN(s);
      if MatchAt(s) {
        var rest := s[1 + WsRun(s[1..]) + 3..];
        RepairNaNComplete(rest);
        NullNoMatch(RepairNaN(rest));
      } else {
        RepairNaNComplete(s[1..]);
        var tail := RepairNaN(s[1..]);
        assert r == [s[0]] + tail && r[1..] == tail;
        MatchBack(s);
      }
    }
  }

  /** A match at the head of a partly repaired text was already a match in the original. */
  lemma MatchBack(s: string)
    requires |s| > 0
    ensures MatchAt([s[0]] + RepairNaN(s[1..])) ==> MatchAt(s)
  {
    var r := [s[0]] + RepairNaN(s[1..]);
    if MatchAt(r) {
      assert r[1..] == RepairNaN(s[1..]);
      RepairNaNAfterWs(s[1..]);
    }
  }

  /** Putting a character other than a colon in front of a text without a match adds no match. */
  lemma ConsNoMatch(c: char, t: string)
    requires c != ':' && !AnyMatch(t)
    ensures !AnyMatch([c] + t)
  {
    assert ([c] + t)[1..] == t;
  }

  /** The replacement text followed by a text without a match has no match. */
  lemma NullNoMatch(tail: string)
    ensures !AnyMatch(tail) ==> !AnyMatch(": null" + tail)
  {
    if !AnyMatch(tail) {
      ConsNoMatch('l', tail);
      assert ['l'] + tail == "l" + tail;
      ConsNoMatch('l', "l" + tail);
      assert ['l'] + ("l" + tail) == "ll" + tail;
      ConsNoMatch('u', "ll" + tail);
      assert ['u'] + ("ll" + tail) == "ull" + tail;
      ConsNoMatch('n', "ull" + tail);
      assert ['n'] + ("ull" + tail) == "null" + tail;
      ConsNoMatch(' ', "null" + tail);
      assert [' '] + ("null" + tail) == " null" + tail;
      var x := ": null" + tail;
      assert x[1..] == " null" + tail;
      assert x[1..][1..] == "null" + tail;
      assert WsRun(x[1..]) == 1;
      assert x[1 + WsRun(x[1..])..] == "null" + tail;
    }
  }

  // ------------------------------------------------ retryable errors

  /** The catch block's retry test on an error message. */
  predicate IsJsonNaNError(message: string) {
    Contains(message, "Unexpected token") && (Contains(message, "NaN") || Contains(message, "is not valid JSON"))
  }

  // ------------------------------------------------ one attempt

  /** What reading and parsing the script's output file gave. */
  datatype Output =
    | Missing(message: string)       // readFile rejected: the script wrote no output file
    | Unparsable(message: string)    // JSON.parse threw
    | Parsed(value: Json, scriptUnlinked: bool, outputUnlinked: bool)
      // the parsed value, and whether each of the two `unlink` calls that follow resolved

  /** How far the attempt got. */
  datatype Run =
    | WriteFailed(message: string)   // writing the temporary script rejected
    | ExecFailed(message: string)    // the subprocess rejected (non-zero exit)
    | Completed(stderr: string, output: Output)

  /** One attempt, with the two temporary paths its clock reading gave. */
  datatype Attempt = Attempt(scriptPath: string, outputPath: string, run: Run)

  const FailurePrefix: string := "Failed to transcribe audio: "

  /** The attempt got past `JSON.parse`, so both `unlink` calls ran before `full_result` is read. */
  predicate ReachesCleanup(a: Attempt) {
    a.run.Completed? && !Contains(a.run.stderr, "Error:") && a.run.output.Parsed?
  }

  /** What the body of the `try` of one attempt returns or throws. */
  function AttemptOutcome(a: Attempt): (r: Result<Option<Json>, string>)
    ensures r.Success? ==> ReachesCleanup(a)
    ensures ReachesCleanup(a) ==> (r.Failure? <==> a.run.output.value == JNull)
    ensures a.run.Completed? && Contains(a.run.stderr, "Error:") ==> r == Failure(a.run.stderr)
    ensures a.run.Completed? && !Contains(a.run.stderr, "Error:") && a.run.output.Parsed? && a.run.output.value.JObj? ==>
      r == Success(if "full_result" in a.run.output.value.fields then Some(a.run.output.value.fields["full_result"]) else None)
  {
    match a.run
    case WriteFailed(m) => Failure(m)
    case ExecFailed(m) => Failure(m)
    case Completed(stderr, out) =>
      if Contains(stderr, "Error:") then Failure(stderr)
      else match out
        case Missing(m) => Failure(m)
        case Unparsable(m) => Failure(m)
        case Parsed(v, _, _) => JsGet(Some(v), "full_result")
  }

  /** The temporary files the attempt's clean-up removed: those whose `unlink` resolved. */
  function Unlinked(a: Attempt): set<string>
  {
    if ReachesCleanup(a) then
      (if a.run.output.scriptUnlinked then {a.scriptPath} else {}) + (if a.run.output.outputUnlinked then {a.outputPath} else {})
    else {}
  }

  /**
   * The temporary files present after one attempt: the script once written, the
   * output once the script wrote it, less those the clean-up removed.
   */
  function FilesAfterAttempt(files: set<string>, a: Attempt): set<string>
  {
    match a.run
    case WriteFailed(_) => files
    case ExecFailed(_) => files + {a.scriptPath}
    case Completed(_, out) =>
      files + {a.scriptPath} + (if out.Missing? then {} else {a.outputPath}) - Unlinked(a)
  }

  /**
   * An output of `null` parses, so the clean-up runs, and then reading
   * `full_result` throws a TypeError that is not retryable.
   */
  lemma NullOutputCleansUp(files: set<string>, a: Attempt)
    requires a.run.Completed? && !Contains(a.run.stderr, "Error:")
    requires a.run.output.Parsed? && a.run.output.value == JNull
    ensures AttemptOutcome(a) == Failure(ReadError(Some(JNull), "full_result"))
    ensures !IsJsonNaNError(AttemptOutcome(a).error)
    ensures a.run.output.scriptUnlinked ==> a.scriptPath !in FilesAfterAttempt(files, a)
    ensures a.run.output.outputUnlinked ==> a.outputPath !in FilesAfterAttempt(files, a)
  {
    var m := AttemptOutcome(a).error;
    assert m == "Cannot read properties of " + "null" + " (reading '" + "full_result" + "')";
    assert 'U' !in "Cannot read properties of " && 'U' !in "null" && 'U' !in " (reading '";
    assert 'U' !in "full_result" && 'U' !in "')";
    NotContainsByHead(m, "Unexpected token");
  }

  // ------------------------------------------------ the retry chain

  /** The oracle is indexed by the remaining retry count, so each attempt of one chain has its own index. */
  function Transcribe(calls: Calls, retryCount: nat, run: (Calls, nat) -> Attempt): Result<Option<Json>, string>
    decreases retryCount
  {
    match AttemptOutcome(run(calls, retryCount))
    case Success(v) => Success(v)
    case Failure(m) =>
      if IsJsonNaNError(m) && retryCount > 0 then Transcribe(calls, retryCount - 1, run)
      else Failure(FailurePrefix + m)
  }

  /** How many attempts the chain runs. */
  function Attempts(calls: Calls, retryCount: nat, run: (Calls, nat) -> Attempt): nat
    decreases retryCount
  {
    match AttemptOutcome(run(calls, retryCount))
    case Success(_) => 1
    case Failure(m) =>
      if IsJsonNaNError(m) && retryCount > 0 then 1 + Attempts(calls, retryCount - 1, run) else 1
  }

  function FilesAfter(files: set<string>, calls: Calls, retryCount: nat, run: (Calls, nat) -> Attempt): set<string>
    decreases retryCount
  {
    var a := run(calls, retryCount);
    var after := FilesAfterAttempt(files, a);
    match AttemptOutcome(a)
    case Success(_) => after
    case Failure(m) =>
      if IsJsonNaNError(m) && retryCount > 0 then FilesAfter(after, calls, retryCount - 1, run) else after
  }

  /** At least one and at most retryCount + 1 attempts run. */
  lemma {:induction false} AttemptsBound(calls: Calls, retryCount: nat, run: (Calls, nat) -> Attempt)
    ensures 1 <= Attempts(calls, retryCount, run) <= retryCount + 1
    decreases retryCount
  {
    if retryCount > 0 {
      AttemptsBound(calls, retryCount - 1, run);
    }
  }

  /** When every attempt fails retryably, exactly retryCount + 1 attempts run and the last message is wrapped once. */
  lemma {:induction false} AllRetryable(calls: Calls, retryCount: nat, run: (Calls, nat) -> Attempt)
    requires forall j :: 0 <= j <= retryCount ==>
      AttemptOutcome(run(calls, j)).Failure? && IsJsonNaNError(AttemptOutcome(run(calls, j)).error)
    ensures Attempts(calls, retryCount, run) == retryCount + 1
    ensures Transcribe(calls, retryCount, run) == Failure(FailurePrefix + AttemptOutcome(run(calls, 0)).error)
    decreases retryCount
  {
    if retryCount > 0 {
      AllRetryable(calls, retryCount - 1, run);
    }
  }

  /** A failure that is not retryable ends the chain after that attempt with the wrapped message. */
  lemma NonRetryable(calls: Calls, retryCount: nat, run: (Calls, nat) -> Attempt, m: string)
    requires AttemptOutcome(run(calls, retryCount)) == Failure(m) && !IsJsonNaNError(m)
    ensures Transcribe(calls, retryCount, run) == Failure(FailurePrefix + m)
    ensures Attempts(calls, retryCount, run) == 1
  {
  }

  /** A failed chain reports the message of its last attempt, wrapped exactly once; that attempt was the last allowed one or was not retryable. */
  lemma {:induction false} FailureWrappedOnce(calls: Calls, retryCount: nat, run: (Calls, nat) -> Attempt)
    returns (j: nat, m: string)
    requires Transcribe(calls, retryCount, run).Failure?
    ensures j <= retryCount && j == retryCount + 1 - Attempts(calls, retryCount, run)
    ensures AttemptOutcome(run(calls, j)) == Failure(m)
    ensures Transcribe(calls, retryCount, run) == Failure(FailurePrefix + m)
    ensures j == 0 || !IsJsonNaNError(m)
    decreases retryCount
  {
    var o := AttemptOutcome(run(calls, retryCount));
    if IsJsonNaNError(o.error) && retryCount > 0 {
      j, m := FailureWrappedOnce(calls, retryCount - 1, run);
    } else {
      j, m := retryCount, o.error;
    }
  }

  /** A successful chain returns the `full_result` member of the parsed output of its last attempt. */
  lemma {:induction false} SuccessIsFullResult(calls: Calls, retryCount: nat, run: (Calls, nat) -> Attempt)
    returns (j: nat)
    requires Transcribe(calls, retryCount, run).Success?
    ensures j <= retryCount && j == retryCount + 1 - Attempts(calls, retryCount, run)
    ensures run(calls, j).run.Completed? && run(calls, j).run.output.Parsed?
    ensures !Contains(run(calls, j).run.stderr, "Error:")
    ensures Success(Transcribe(calls, retryCount, run).value) == JsGet(Some(run(calls, j).run.output.value), "full_result")
    decreases retryCount
  {
    var o := AttemptOutcome(run(calls, retryCount));
    if o.Success? {
      j := retryCount;
    } else {
      j := SuccessIsFullResult(calls, retryCount - 1, run);
    }
  }

  /** The temporary files the clean-up of some attempt of the chain removed. */
  function CleanedPaths(calls: Calls, retryCount: nat, run: (Calls, nat) -> Attempt): set<string>
    decreases retryCount
  {
    var a := run(calls, retryCount);
    match AttemptOutcome(a)
    case Success(_) => Unlinked(a)
    case Failure(m) =>
      if IsJsonNaNError(m) && retryCount > 0 then Unlinked(a) + CleanedPaths(calls, retryCount - 1, run) else Unlinked(a)
  }

  /**
   * Only the last attempt of a chain can reach the clean-up: an attempt that
   * reaches it either succeeds or throws the non-retryable TypeError of a `null`
   * output.
   */
  lemma {:induction false} OnlyLastCleansUp(calls: Calls, retryCount: nat, run: (Calls, nat) -> Attempt)
    returns (last: nat)
    ensures last == retryCount + 1 - Attempts(calls, retryCount, run)
    ensures forall i :: last < i <= retryCount ==> !ReachesCleanup(run(calls, i))
    ensures CleanedPaths(calls, retryCount, run) == Unlinked(run(calls, last))
    decreases retryCount
  {
    var a := run(calls, retryCount);
    var o := AttemptOutcome(a);
    if o.Failure? && IsJsonNaNError(o.error) && retryCount > 0 {
      if ReachesCleanup(a) {
        NullOutputCleansUp({}, a);
        assert false;
      }
      last := OnlyLastCleansUp(calls, retryCount - 1, run);
    } else {
      last := retryCount;
    }
  }

  /**
   * The chain removes no file but those its clean-up unlinked: every file present
   * before stays, and so does the script of every attempt that wrote one.
   */
  lemma {:induction false} OnlyUnlinkedRemoved(files: set<string>, calls: Calls, retryCount: nat, run: (Calls, nat) -> Attempt, j: nat)
    requires retryCount + 1 - Attempts(calls, retryCount, run) <= j <= retryCount
    ensures files - CleanedPaths(calls, retryCount, run) <= FilesAfter(files, calls, retryCount, run)
    ensures !run(calls, j).run.WriteFailed? && run(calls, j).scriptPath !in CleanedPaths(calls, retryCount, run) ==>
      run(calls, j).scriptPath in FilesAfter(files, calls, retryCount, run)
    decreases retryCount
  {
    var a := run(calls, retryCount);
    var o := AttemptOutcome(a);
    var after := FilesAfterAttempt(files, a);
    if o.Failure? && IsJsonNaNError(o.error) && retryCount > 0 {
      if j < retryCount {
        OnlyUnlinkedRemoved(after, calls, retryCount - 1, run, j);
      } else {
        AttemptsBound(calls, retryCount - 1, run);
        OnlyUnlinkedRemoved(after, calls, retryCount - 1, run, retryCount - 1);
      }
    }
  }

  /**
   * A failed chain in which no attempt's output parsed deletes nothing: every
   * file present before is still there, and so is every script written.
   */
  lemma FailureKeepsTemps(files: set<string>, calls: Calls, retryCount: nat, run: (Calls, nat) -> Attempt, j: nat)
    requires Transcribe(calls, retryCount, run).Failure?
    requires retryCount + 1 - Attempts(calls, retryCount, run) <= j <= retryCount
    requires forall i :: 0 <= i <= retryCount ==> !ReachesCleanup(run(calls, i))
    ensures files <= FilesAfter(files, calls, retryCount, run)
    ensures !run(calls, j).run.WriteFailed? ==> run(calls, j).scriptPath in FilesAfter(files, calls, retryCount, run)
  {
    var last := OnlyLastCleansUp(calls, retryCount, run);
    OnlyUnlinkedRemoved(files, calls, retryCount, run, j);
  }

  /**
   * The successful attempt is the last; each of its temporary files is gone
   * afterwards when its `unlink` resolved, and still there when it was rejected.
   */
  lemma {:induction false} SuccessDeletesTemps(files: set<string>, calls: Calls, retryCount: nat, run: (Calls, nat) -> Attempt)
    returns (j: nat)
    requires Transcribe(calls, retryCount, run).Success?
    ensures j <= retryCount && AttemptOutcome(run(calls, j)).Success?
    ensures run(calls, j).run.output.scriptUnlinked ==> run(calls, j).scriptPath !in FilesAfter(files, calls, retryCount, run)
    ensures run(calls, j).run.output.outputUnlinked ==> run(calls, j).outputPath !in FilesAfter(files, calls, retryCount, run)
    ensures run(calls, j).scriptPath != run(calls, j).outputPath ==>
      (run(calls, j).run.output.scriptUnlinked <==> run(calls, j).scriptPath !in FilesAfter(files, calls, retryCount, run)) &&
      (run(calls, j).run.output.outputUnlinked <==> run(calls, j).outputPath !in FilesAfter(files, calls, retryCount, run))
    decreases retryCount
  {
    var a := run(calls, retryCount);
    if AttemptOutcome(a).Success? {
      j := retryCount;
    } else {
      j := SuccessDeletesTemps(FilesAfterAttempt(files, a), calls, retryCount - 1, run);
    }
  }

  // ------------------------------------------------ the imperative service

  /** The temporary files on disk that the service creates and deletes. */
  class TempFiles {
    var files: set<string>

    constructor(initial: set<string>)
      ensures files == initial
    {
      files := initial;
    }
  }

  /**
   * `transcribeAudio(audioFilePath, whisperModel, retryCount)`. Each attempt
   * writes the script, runs it, checks stderr, reads and parses the output,
   * unlinks both temporary files (a rejected `unlink` only warns) and then
   * reads `full_result`; the catch block retries by
   * calling itself with one retry fewer.
   */
  method TranscribeAudio(disk: TempFiles, audioPath: string, whisperModel: Option<string>, retryCount: nat,
                         run: (Calls, nat) -> Attempt)
    returns (r: Result<Option<Json>, string>)
    modifies disk
    ensures r == Transcribe(ScriptCalls(audioPath, whisperModel), retryCount, run)
    ensures disk.files == FilesAfter(old(disk.files), ScriptCalls(audioPath, whisperModel), retryCount, run)
    decreases retryCount
  {
    var calls := ScriptCalls(audioPath, whisperModel);
    var a := run(calls, retryCount);
    var thrown: string;
    match a.run {
      case WriteFailed(m) =>
        thrown := m;
      case ExecFailed(m) =>
        disk.files := disk.files + {a.scriptPath};
        thrown := m;
      case Completed(stderr, out) =>
        disk.files := disk.files + {a.scriptPath};
        if !out.Missing? {
          disk.files := disk.files + {a.outputPath};
        }
        if Contains(stderr, "Error:") {
          thrown := stderr;
        } else {
          match out {
            case Missing(m) =>
              thrown := m;
            case Unparsable(m) =>
              thrown := m;
            case Parsed(v, scriptUnlinked, outputUnlinked) =>
              if scriptUnlinked {
                disk.files := disk.files - {a.scriptPath};
              }
              if outputUnlinked {
                disk.files := disk.files - {a.outputPath};
              }
              var fullResult := JsGet(Some(v), "full_result");
              if fullResult.Failure? {
                thrown := fullResult.error;
              } else {
                return Success(fullResult.value);
              }
          }
        }
    }
    assert AttemptOutcome(a) == Failure(thrown);
    assert disk.files == FilesAfterAttempt(old(disk.files), a);
    if IsJsonNaNError(thrown) && retryCount > 0 {
      r := TranscribeAudio(disk, audioPath, whisperModel, retryCount - 1, run);
    } else {
      r := Failure(FailurePrefix + thrown);
    }
  }
}
