/** Helpers of the Docker build API (rest-api/utils.js): stripping ANSI colour codes
    from a log line, validating a build request, and collecting a container's log
    stream into one text while remembering the last section banner. */
module RestUtils {
  import opened JsText

  const Esc: char := '\U{001B}'

  /** The characters `.` in a regular expression does not match. */
  predicate IsLineTerminator(c: char) {
    c == '\n' || c == '\r' || c == '\U{2028}' || c == '\U{2029}'
  }

  /** The index of the first 'm' of `t`, if no line terminator comes before it. */
  function FirstM(t: string): (r: Option<nat>)
    ensures r.Some? ==> r.value < |t| && t[r.value] == 'm'
    ensures r.Some? ==> forall i :: 0 <= i < r.value ==> t[i] != 'm' && !IsLineTerminator(t[i])
    ensures r.None? ==> forall i :: 0 <= i < |t| && t[i] == 'm' ==>
      exists j :: 0 <= j < i && IsLineTerminator(t[j])
  {
    if t == [] then None
    else if t[0] == 'm' then Some(0)
    else if IsLineTerminator(t[0]) then None
    else
      match FirstM(t[1..])
      case None => None
      case Some(j) => Some(j + 1)
  }

  /** The length of the match of `\u001b\[.*?m` at the start of `s`: ESC, '[', then
      everything up to the nearest 'm' on the same line. */
  function CodeLength(s: string): (r: Option<nat>)
    ensures r.Some? ==> 3 <= r.value <= |s| && s[0] == Esc && s[1] == '[' && s[r.value - 1] == 'm'
    ensures r.Some? ==> forall i :: 2 <= i < r.value - 1 ==> s[i] != 'm' && !IsLineTerminator(s[i])
    ensures r.None? <==> !OpensCode(s) || NoCodeEnd(s)
  {
    if |s| >= 2 && s[0] == Esc && s[1] == '[' then
      match FirstM(s[2..])
      case None =>
        NoCodeEndShift(s);
        None
      case Some(j) =>
        assert !NoCodeEnd(s) by {
          assert s[j + 2] == 'm';
          forall k | 2 <= k < j + 2 ensures !IsLineTerminator(s[k]) {
            assert s[k] == s[2..][k - 2];
          }
        }
        Some(j + 3)
    else None
  }

  /** `s` starts with ESC `[`. */
  predicate OpensCode(s: string) {
    |s| >= 2 && s[0] == Esc && s[1] == '['
  }

  /** Every 'm' after the opening ESC `[` comes after a line terminator, so the lazy
      `.*?m` cannot reach it. */
  predicate NoCodeEnd(s: string) {
    forall k :: 2 <= k < |s| && s[k] == 'm' ==> exists j :: 2 <= j < k && IsLineTerminator(s[j])
  }

  lemma NoCodeEndShift(s: string)
    requires |s| >= 2 && FirstM(s[2..]).None?
    ensures NoCodeEnd(s)
  {
    var t := s[2..];
    forall k | 2 <= k < |s| && s[k] == 'm'
      ensures exists j :: 2 <= j < k && IsLineTerminator(s[j])
    {
      assert t[k - 2] == 'm';
      var j :| 0 <= j < k - 2 && IsLineTerminator(t[j]);
      assert s[j + 2] == t[j];
    }
  }

  /** `log.replace(/\u001b\[.*?m/g, "")`: matches are found left to right, and the
      search resumes after each removed match. */
  function StripAnsi(s: string): string
    decreases |s|
  {
    if s == [] then []
    else
      match CodeLength(s)
      case Some(n) => StripAnsi(s[n..])
      case None => [s[0]] + StripAnsi(s[1..])
  }

  /** Text without escape characters passes through unchanged. */
  lemma {:induction false} StripAnsiNoEscape(s: string)
    requires Esc !in s
    ensures StripAnsi(s) == s
    decreases |s|
  {
    if s != [] {
      assert s[0] != Esc;
      assert Esc !in s[1..];
      StripAnsiNoEscape(s[1..]);
    }
  }

  /** Text without escape characters before a code is kept as it is. */
  lemma {:induction false} StripAnsiKeepsPrefix(u: string, rest: string)
    requires Esc !in u
    ensures StripAnsi(u + rest) == u + StripAnsi(rest)
    decreases |u|
  {
    if u != [] {
      assert (u + rest)[0] == u[0] != Esc;
      assert (u + rest)[1..] == u[1..] + rest;
      assert Esc !in u[1..];
      StripAnsiKeepsPrefix(u[1..], rest);
    } else {
      assert u + rest == rest;
    }
  }

  /** A colour code, up to its nearest 'm', is removed as a whole. */
  lemma StripAnsiRemovesCode(params: string, rest: string)
    requires forall i :: 0 <= i < |params| ==> params[i] != 'm' && !IsLineTerminator(params[i])
    ensures StripAnsi([Esc, '['] + params + ['m'] + rest) == StripAnsi(rest)
  {
    var s := [Esc, '['] + params + ['m'] + rest;
    assert s[2..] == params + ['m'] + rest;
    assert (params + ['m'] + rest)[|params|] == 'm';
    assert CodeLength(s) == Some(|params| + 3);
    assert s[|params| + 3..] == rest;
  }

  /** An escape that starts no complete code (not followed by `[`, or with no 'm'
      before the line ends) is kept, and the search resumes right after it. */
  lemma StripAnsiKeepsUnterminated(s: string)
    requires s != [] && s[0] == Esc
    requires !OpensCode(s) || NoCodeEnd(s)
    ensures StripAnsi(s) == [Esc] + StripAnsi(s[1..])
  {
  }

  /** One pass does not remove a code that only forms once an inner code is removed:
      the result can still hold a colour code. */
  lemma StripAnsiSinglePass()
    ensures StripAnsi([Esc, Esc, '[', 'm', '[', 'm']) == [Esc, '[', 'm']
  {
    var s := [Esc, Esc, '[', 'm', '[', 'm'];
    assert CodeLength(s).None?;
    assert s[1..] == [Esc, '[', 'm'] + ['[', 'm'];
    StripAnsiRemovesCode([], ['[', 'm']);
    assert [Esc, '['] + [] + ['m'] + ['[', 'm'] == s[1..];
    StripAnsiNoEscape(['[', 'm']);
  }

  /** What `formatDockerLog` returns: the stripped line as it is, or (when the stripped
      line is a JSON text) its pretty-printed form, which is not modelled. */
  datatype FormattedLog = AsIs(text: string) | PrettyJson(source: string)

  /** `formatDockerLog`, with "is a JSON text" as a parameter. */
  function FormatDockerLog(log: string, isJson: string -> bool): (r: FormattedLog)
    ensures r.AsIs? <==> !isJson(StripAnsi(log))
    ensures r.AsIs? ==> r.text == StripAnsi(log)
    ensures r.PrettyJson? ==> r.source == StripAnsi(log)
  {
    var stripped := StripAnsi(log);
    if isJson(stripped) then PrettyJson(stripped) else AsIs(stripped)
  }

  /* ------------------------------------------------------------ validation */

  /** What the validation middleware does with a request. */
  datatype Validation =
    | Next
    | BadRequest(error: string)
    /** The middleware throws; no reply of its own is sent. */
    | Throws(error: string)

  /** The ReferenceError every use of `logger` in rest-api/utils.js raises: the module
      declares and imports no `logger`. */
  const LoggerUndefined := "logger is not defined"

  const MissingFieldsMessage := "Missing required fields: gitRepoUrl and projectId are required"

  /** `validateRequest` as written: its missing-field branch first calls `logger.error`,
      and no `logger` is declared in rest-api/utils.js, so that branch throws a
      ReferenceError before the 400 reply. */
  function ValidateRequestAsWritten(gitRepoUrl: Option<string>, projectId: Option<string>): (r: Validation)
    ensures r.Next? <==> Truthy(gitRepoUrl) && Truthy(projectId)
    ensures !r.Next? ==> r == Throws(LoggerUndefined)
  {
    if !Truthy(gitRepoUrl) || !Truthy(projectId) then Throws(LoggerUndefined)
    else Next
  }

  /** The request with no project id is never answered with 400 as written. */
  lemma ValidateRequestAsWrittenNever400()
    ensures ValidateRequestAsWritten(Some("https://github.com/o/r"), None) == Throws(LoggerUndefined)
    ensures forall g, p :: !ValidateRequestAsWritten(g, p).BadRequest?
  {
  }

  /** `validateRequest` as evidently intended: a missing field is answered with 400. */
  function ValidateRequest(gitRepoUrl: Option<string>, projectId: Option<string>): (r: Validation)
    ensures r.Next? <==> Truthy(gitRepoUrl) && Truthy(projectId)
    ensures !r.Next? ==> r == BadRequest(MissingFieldsMessage)
    ensures r.Next? <==> ValidateRequestAsWritten(gitRepoUrl, projectId).Next?
  {
    if !Truthy(gitRepoUrl) || !Truthy(projectId) then BadRequest(MissingFieldsMessage)
    else Next
  }

  /* --------------------------------------------------------- log collection */

  /** The log lines a stream of chunks carries: each chunk trimmed, whitespace-only
      chunks dropped, in arrival order. */
  function Lines(chunks: seq<string>): (r: seq<string>)
    ensures |r| <= |chunks|
    ensures forall i :: 0 <= i < |r| ==> r[i] != ""
  {
    if chunks == [] then []
    else
      var line := Trim(chunks[|chunks| - 1]);
      Lines(chunks[..|chunks| - 1]) + (if line == "" then [] else [line])
  }

  lemma {:induction false} LinesAppend(a: seq<string>, b: seq<string>)
    ensures Lines(a + b) == Lines(a) + Lines(b)
    decreases |b|
  {
    if b == [] {
      assert a + b == a;
    } else {
      var init, last := b[..|b| - 1], b[|b| - 1];
      var extra := if Trim(last) == "" then [] else [Trim(last)];
      assert (a + b)[..|a + b| - 1] == a + init;
      assert (a + b)[|a + b| - 1] == last;
      assert Lines(a + b) == Lines(a + init) + extra;
      assert Lines(b) == Lines(init) + extra;
      LinesAppend(a, init);
      AppendAssoc(Lines(a), Lines(init), extra);
    }
  }

  /** A chunk of white space alone adds no line, wherever it arrives. */
  lemma BlankChunkAddsNothing(a: seq<string>, blank: string, b: seq<string>)
    requires forall i :: 0 <= i < |blank| ==> IsJsSpace(blank[i])
    ensures Lines(a + [blank] + b) == Lines(a + b)
  {
    assert Lines([blank]) == [] by {
      assert [blank][..0] == [];
      assert Trim(blank) == [];
    }
    calc {
      Lines(a + [blank] + b);
      { LinesAppend(a + [blank], b); }
      Lines(a + [blank]) + Lines(b);
      { LinesAppend(a, [blank]); }
      Lines(a) + Lines(b);
      { LinesAppend(a, b); }
      Lines(a + b);
    }
  }

  /** Reading one more chunk adds its trimmed text as a line, unless that is empty. */
  lemma LinesStep(chunks: seq<string>, i: nat)
    requires i < |chunks|
    ensures Lines(chunks[..i + 1]) ==
      Lines(chunks[..i]) + (if Trim(chunks[i]) == "" then [] else [Trim(chunks[i])])
  {
    assert chunks[..i + 1][..i] == chunks[..i];
  }

  /** Every line followed by a newline. */
  function Terminated(lines: seq<string>): string {
    if lines == [] then "" else Terminated(lines[..|lines| - 1]) + lines[|lines| - 1] + "\n"
  }

  predicate IsSectionLine(line: string) {
    StartsWith(line, "===") || StartsWith(line, "---")
  }

  /** The last line that opens a section, or "" when none has. */
  function LastSection(chunks: seq<string>): (r: string)
    ensures r == "" || IsSectionLine(r)
    ensures r != "" ==> exists i :: 0 <= i < |chunks| && Trim(chunks[i]) == r
  {
    if chunks == [] then ""
    else
      var line := Trim(chunks[|chunks| - 1]);
      if IsSectionLine(line) then line else LastSection(chunks[..|chunks| - 1])
  }

  /** The last section is always one of the collected lines. */
  lemma {:induction false} LastSectionIsALine(chunks: seq<string>)
    ensures LastSection(chunks) != "" ==> LastSection(chunks) in Lines(chunks)
    decreases |chunks|
  {
    if chunks != [] {
      var init := chunks[..|chunks| - 1];
      var line := Trim(chunks[|chunks| - 1]);
      LastSectionIsALine(init);
      var extra := if line == "" then [] else [line];
      assert Lines(chunks) == Lines(init) + extra;
      if IsSectionLine(line) {
        assert line != "" && line in extra;
        InAppend(Lines(init), extra, line);
      } else if LastSection(init) != "" {
        InAppend(Lines(init), extra, LastSection(init));
      }
    }
  }

  /** What one more chunk does to the collected text and to the last section. */
  lemma CollectStep(chunks: seq<string>, i: nat)
    requires i < |chunks|
    ensures Trim(chunks[i]) == "" ==> Lines(chunks[..i + 1]) == Lines(chunks[..i])
    ensures Trim(chunks[i]) != "" ==>
      Terminated(Lines(chunks[..i + 1])) == Terminated(Lines(chunks[..i])) + Trim(chunks[i]) + "\n"
    ensures LastSection(chunks[..i + 1])
         == (if IsSectionLine(Trim(chunks[i])) then Trim(chunks[i]) else LastSection(chunks[..i]))
  {
    var line := Trim(chunks[i]);
    var before := Lines(chunks[..i]);
    LinesStep(chunks, i);
    assert chunks[..i + 1][..i] == chunks[..i];
    if line != "" {
      var after := before + [line];
      assert after[..|after| - 1] == before;
      assert after[|after| - 1] == line;
    }
  }

  lemma InAppend<T>(a: seq<T>, b: seq<T>, x: T)
    requires x in a || x in b
    ensures x in a + b
  {
  }

  datatype StreamEnd = Ended | Errored(message: string)

  /** How the promise of `streamLogs` ends up: resolved with the collected text,
      rejected with the stream's error, or never settled because the `error` listener
      itself threw. */
  datatype Collected = Resolved(logs: string) | Rejected(message: string) | Unsettled(thrown: string)

  /** The `data` listener over the whole stream: each chunk is trimmed, whitespace-only
      chunks are skipped, every other line is appended with a newline (section banners
      included), and the last banner is remembered. */
  method CollectLogs(chunks: seq<string>) returns (logs: string, lastSection: string)
    ensures logs == Terminated(Lines(chunks))
    ensures lastSection == LastSection(chunks)
  {
    logs := "";
    lastSection := "";
    var i := 0;
    while i < |chunks|
      invariant 0 <= i <= |chunks|
      invariant logs == Terminated(Lines(chunks[..i]))
      invariant lastSection == LastSection(chunks[..i])
    {
      CollectStep(chunks, i);
      var logLine := Trim(chunks[i]);
      if logLine != "" {
        logs := logs + logLine + "\n";
        if IsSectionLine(logLine) {
          lastSection := logLine;
        }
      }
      i := i + 1;
    }
    TakeAll(chunks);
  }

  /** `streamLogs` as written: the `error` listener first calls `logger.error`, which
      throws a ReferenceError, so `reject` is never reached and the promise never
      settles. */
  method StreamLogsAsWritten(chunks: seq<string>, end: StreamEnd) returns (outcome: Collected, lastSection: string)
    ensures end.Ended? ==> outcome == Resolved(Terminated(Lines(chunks)))
    ensures end.Errored? ==> outcome == Unsettled(LoggerUndefined)
    ensures lastSection == LastSection(chunks)
  {
    var logs;
    logs, lastSection := CollectLogs(chunks);
    if end.Ended? {
      outcome := Resolved(logs);
    } else {
      outcome := Unsettled(LoggerUndefined);
    }
  }

  /** `streamLogs` as evidently intended: the promise resolves with the collected text
      when the stream ends and is rejected with the stream's error when it fails. */
  method StreamLogs(chunks: seq<string>, end: StreamEnd) returns (outcome: Collected, lastSection: string)
    ensures end.Ended? ==> outcome == Resolved(Terminated(Lines(chunks)))
    ensures end.Errored? ==> outcome == Rejected(end.message)
    ensures lastSection == LastSection(chunks)
  {
    var logs;
    logs, lastSection := CollectLogs(chunks);
    if end.Ended? {
      outcome := Resolved(logs);
    } else {
      outcome := Rejected(end.message);
    }
  }
}
