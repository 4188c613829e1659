/** The streaming upload of the upload service: post a statement file, read the
    response body as newline-delimited server-sent-event lines `data: <json>`,
    report progress frames to the caller and turn the last terminal frame into
    a result or an error. */
module UploadStream {
  import opened Text
  import opened Js
  import Api

  /** The file the user picked. */
  datatype File = File(name: string, mimeType: string, size: nat)

  datatype FormValue = FileValue(file: File) | TextValue(text: string)

  /** The multipart form of the request: `file` always, `password` and
      `referenceMonth` only when they are given and not empty. */
  function FormFields(file: File, password: Option<string>, referenceMonth: Option<string>)
    : (fields: seq<(string, FormValue)>)
    ensures |fields| >= 1 && fields[0] == ("file", FileValue(file))
    ensures forall p :: ("password", TextValue(p)) in fields <==> password == Some(p) && p != ""
    ensures forall m :: ("referenceMonth", TextValue(m)) in fields <==> referenceMonth == Some(m) && m != ""
    ensures forall k :: 1 <= k < |fields| ==> fields[k].0 in {"password", "referenceMonth"}
  {
    [("file", FileValue(file))]
    + (if password.Some? && password.value != "" then [("password", TextValue(password.value))] else [])
    + (if referenceMonth.Some? && referenceMonth.value != "" then [("referenceMonth", TextValue(referenceMonth.value))] else [])
  }

  /** What `response.json()` and the read of `error.error` make of a body:
      a JSON object; another JSON value that is not `null` (a text, a number,
      a boolean, an array), whose `error` reads as `undefined`; or a body that
      is not JSON, or is `null`, where the parse or the read throws an error
      whose message, chosen by the runtime, is given. */
  datatype ErrorBody = ObjectBody(fields: Frame) | OtherJson | Unreadable(message: string)

  /** What `fetch` gives back: a rejection, or a response with its status, its
      body as an error body, and the chunks of a readable body (already
      decoded to text), if it has one. */
  datatype Response =
    | NetworkError(message: string)
    | HttpResponse(ok: bool, errorBody: ErrorBody, body: Option<seq<string>>)

  /** The call resolves with a result object or rejects with an `Error` built from `reason`. */
  datatype Outcome = Returned(result: Frame) | Threw(reason: JVal)

  const UploadFailed := "Erro ao fazer upload do arquivo"
  const StreamUnavailable := "Stream não disponível"
  const NotCompleted := "Processamento não completou"
  const ProcessingFailed := "Erro ao processar arquivo"
  const DataPrefix := "data: "

  /** The event handed to `onProgress`: progress defaults to 0 (`??`), message to
      the empty string (`||`), the other fields are copied. */
  datatype ProgressEvent = ProgressEvent(
    progress: JVal,
    message: JVal,
    success: Option<JVal>,
    transactionsCreated: Option<JVal>,
    filename: Option<JVal>,
    originalname: Option<JVal>,
    error: Option<JVal>,
    requiresPassword: Option<JVal>,
    invalidPassword: Option<JVal>)

  function ToEvent(f: Frame): (e: ProgressEvent)
    ensures e.progress == (if "progress" in f && f["progress"] != Null then f["progress"] else Num(0))
    ensures e.message == (if "message" in f && Truthy(f["message"]) then f["message"] else Str(""))
  {
    ProgressEvent(
      Coalesce(Field(f, "progress"), Num(0)),
      Or(Field(f, "message"), Str("")),
      Field(f, "success"),
      Field(f, "transactionsCreated"),
      Field(f, "filename"),
      Field(f, "originalname"),
      Field(f, "error"),
      Field(f, "requiresPassword"),
      Field(f, "invalidPassword"))
  }

  /** A frame that says how the processing ended. */
  predicate IsTerminal(f: Frame)
    ensures !IsTerminal(f) ==>
      !IsTruthy(Field(f, "success")) && !IsTruthy(Field(f, "requiresPassword")) && !IsTruthy(Field(f, "invalidPassword"))
  {
    "success" in f || "requiresPassword" in f || "invalidPassword" in f
  }

  /** A frame that is reported to `onProgress`. */
  predicate ReportsProgress(f: Frame)
    ensures !ReportsProgress(f) ==> ToEvent(f).progress == Num(0) && ToEvent(f).message == Str("")
  {
    "progress" in f || "message" in f
  }

  // ---------------------------------------------------------------------------
  // Line framing

  /** The `'\n'`-terminated lines of `s`, without their terminators. */
  function CompleteLines(s: string): (lines: seq<string>)
    ensures forall k :: 0 <= k < |lines| ==> '\n' !in lines[k]
  {
    var parts := Split(s, '\n');
    parts[..|parts| - 1]
  }

  /** What follows the last `'\n'` of `s`: `lines.pop()` after `split`. */
  function Fragment(s: string): (rest: string)
    ensures '\n' !in rest
  {
    var parts := Split(s, '\n');
    parts[|parts| - 1]
  }

  function Terminated(lines: seq<string>): string {
    if lines == [] then "" else lines[0] + "\n" + Terminated(lines[1..])
  }

  /** Splitting loses nothing: the complete lines, each given back its `'\n'`,
      followed by the fragment, are the text. */
  lemma {:induction false} SplitReassembles(s: string)
    ensures Terminated(CompleteLines(s)) + Fragment(s) == s
    decreases |s|
  {
    if '\n' in s {
      var i := Find(s, '\n');
      var rest := s[i + 1..];
      var lines := CompleteLines(rest);
      SplitStep(s);
      SplitReassembles(rest);
      var line := s[..i] + "\n";
      calc {
        Terminated(CompleteLines(s)) + Fragment(s);
        { assert ([s[..i]] + lines)[1..] == lines; }
        line + Terminated(lines) + Fragment(rest);
        { AppendAssoc(line, Terminated(lines), Fragment(rest)); }
        line + (Terminated(lines) + Fragment(rest));
        line + rest;
        { assert line == s[..i + 1]; }
        s[..i + 1] + s[i + 1..];
        { SliceJoin(s, i + 1); }
        s;
      }
    } else {
      assert Split(s, '\n') == [s];
    }
  }

  /** One step of the split: the line before the first `'\n'` and the rest. */
  lemma SplitStep(s: string)
    requires '\n' in s
    ensures CompleteLines(s) == [s[..Find(s, '\n')]] + CompleteLines(s[Find(s, '\n') + 1..])
    ensures Fragment(s) == Fragment(s[Find(s, '\n') + 1..])
  {
    var i := Find(s, '\n');
    var rest := s[i + 1..];
    var tail := Split(rest, '\n');
    assert Split(s, '\n') == [s[..i]] + tail;
    ConsParts(s[..i], tail);
  }

  /** Putting one item in front shifts the last item and the rest by one. */
  lemma ConsParts<T>(x: T, tail: seq<T>)
    requires |tail| >= 1
    ensures ([x] + tail)[..|tail|] == [x] + tail[..|tail| - 1]
    ensures ([x] + tail)[|tail|] == tail[|tail| - 1]
  {
    assert ([x] + tail)[..|tail|] == [x] + tail[..|tail| - 1];
  }

  /** Where the text is cut into chunks does not matter: the lines of `a + b` are
      the lines of `a` followed by the lines of `a`'s fragment extended with `b`. */
  lemma {:induction false} LinesOfConcat(a: string, b: string)
    ensures CompleteLines(a + b) == CompleteLines(a) + CompleteLines(Fragment(a) + b)
    ensures Fragment(a + b) == Fragment(Fragment(a) + b)
    decreases |a|
  {
    if '\n' in a {
      var i := Find(a, '\n');
      assert (a + b)[..i] == a[..i];
      FindAt(a + b, '\n', i);
      assert (a + b)[i + 1..] == a[i + 1..] + b;
      SplitStep(a);
      SplitStep(a + b);
      LinesOfConcat(a[i + 1..], b);
    } else {
      assert Split(a, '\n') == [a];
    }
  }

  /** A last line without its `'\n'` is never read. */
  lemma UnterminatedLineIgnored(text: string, line: string)
    requires text == [] || text[|text| - 1] == '\n'
    requires '\n' !in line
    ensures CompleteLines(text + line) == CompleteLines(text)
  {
    LinesOfConcat(text, line);
    if text != [] {
      var i := |text| - 1;
      assert text == text[..i] + "\n" + [];
      FragmentAfterNewline(text[..i]);
    }
    assert Split(line, '\n') == [line];
  }

  /** A text that ends with `'\n'` leaves no fragment. */
  lemma {:induction false} FragmentAfterNewline(s: string)
    ensures Fragment(s + "\n") == ""
    decreases |s|
  {
    var t := s + "\n";
    var i := Find(t, '\n');
    SplitStep(t);
    if i < |s| {
      assert t[i + 1..] == s[i + 1..] + "\n";
      FragmentAfterNewline(s[i + 1..]);
    } else {
      assert t[i + 1..] == [];
      assert Split([], '\n') == [[]];
    }
  }

  // ---------------------------------------------------------------------------
  // Reading frames

  /** What the loop has gathered: the events passed to `onProgress`, in order, and `finalResult`. */
  datatype Reading = Reading(events: seq<ProgressEvent>, final: Option<Frame>)

  /** One line of the inner `for` loop. */
  function ReadLine(r: Reading, line: string, parse: string -> Option<Frame>): (r': Reading)
    ensures !StartsWith(line, DataPrefix) ==> r' == r
    ensures StartsWith(line, DataPrefix) && parse(line[6..]).None? ==> r' == r
    ensures r.events <= r'.events && |r'.events| <= |r.events| + 1
  {
    if StartsWith(line, DataPrefix) then
      match parse(line[6..])
      case None => r
      case Some(data) =>
        Reading(
          if ReportsProgress(data) then r.events + [ToEvent(data)] else r.events,
          if IsTerminal(data) then Some(data) else r.final)
    else
      r
  }

  function ReadLines(r: Reading, lines: seq<string>, parse: string -> Option<Frame>): Reading
    decreases |lines|
  {
    if lines == [] then r else ReadLines(ReadLine(r, lines[0], parse), lines[1..], parse)
  }

  lemma {:induction false} ReadLinesAppend(r: Reading, a: seq<string>, b: seq<string>, parse: string -> Option<Frame>)
    ensures ReadLines(r, a + b, parse) == ReadLines(ReadLines(r, a, parse), b, parse)
    decreases |a|
  {
    if a != [] {
      assert (a + b)[1..] == a[1..] + b;
      ReadLinesAppend(ReadLine(r, a[0], parse), a[1..], b, parse);
    } else {
      assert a + b == b;
    }
  }

  /** The frame a line gives: its JSON when it is a `data: ` line that parses. */
  function LineFrames(line: string, parse: string -> Option<Frame>): seq<Frame> {
    if StartsWith(line, DataPrefix) && parse(line[6..]).Some? then [parse(line[6..]).value] else []
  }

  /** The frames the data lines parse to, in order; other lines and lines that
      fail to parse give none. */
  function Frames(lines: seq<string>, parse: string -> Option<Frame>): seq<Frame>
    decreases |lines|
  {
    if lines == [] then [] else LineFrames(lines[0], parse) + Frames(lines[1..], parse)
  }

  /** The events for a list of frames: one per frame with progress or message. */
  function EventsOf(frames: seq<Frame>): (events: seq<ProgressEvent>)
    ensures |events| <= |frames|
  {
    if frames == [] then []
    else (if ReportsProgress(frames[0]) then [ToEvent(frames[0])] else []) + EventsOf(frames[1..])
  }

  lemma {:induction false} EventsOfConcat(a: seq<Frame>, b: seq<Frame>)
    ensures EventsOf(a + b) == EventsOf(a) + EventsOf(b)
    decreases |a|
  {
    if a == [] {
      assert a + b == b;
    } else {
      var head := if ReportsProgress(a[0]) then [ToEvent(a[0])] else [];
      calc {
        EventsOf(a + b);
        { assert (a + b)[0] == a[0] && (a + b)[1..] == a[1..] + b; }
        head + EventsOf(a[1..] + b);
        { EventsOfConcat(a[1..], b); }
        head + (EventsOf(a[1..]) + EventsOf(b));
        { AppendAssoc(head, EventsOf(a[1..]), EventsOf(b)); }
        EventsOf(a) + EventsOf(b);
      }
    }
  }

  lemma SliceJoin<T>(s: seq<T>, k: nat)
    requires k <= |s|
    ensures s[..k] + s[k..] == s
  {
  }

  lemma AppendAssoc<T>(a: seq<T>, b: seq<T>, c: seq<T>)
    ensures (a + b) + c == a + (b + c)
  {
  }

  /** One line reports the events of the frame it gives. */
  lemma ReadLineEvents(r: Reading, line: string, parse: string -> Option<Frame>)
    ensures ReadLine(r, line, parse).events == r.events + EventsOf(LineFrames(line, parse))
  {
    if StartsWith(line, DataPrefix) && parse(line[6..]).Some? {
      var f := parse(line[6..]).value;
      assert [f][1..] == [];
    } else {
      assert r.events + [] == r.events;
    }
  }

  /** The last terminal frame of a list. */
  function LastTerminal(frames: seq<Frame>): (r: Option<Frame>)
    ensures r.None? <==> forall k :: 0 <= k < |frames| ==> !IsTerminal(frames[k])
    ensures r.Some? ==> exists k :: (0 <= k < |frames| && frames[k] == r.value && IsTerminal(r.value)
      && forall j :: k < j < |frames| ==> !IsTerminal(frames[j]))
    decreases |frames|
  {
    if frames == [] then None
    else if IsTerminal(frames[|frames| - 1]) then Some(frames[|frames| - 1])
    else LastTerminal(frames[..|frames| - 1])
  }

  lemma {:induction false} LastTerminalPrepend(f: Frame, frames: seq<Frame>)
    ensures LastTerminal([f] + frames) ==
      (if LastTerminal(frames).Some? then LastTerminal(frames) else if IsTerminal(f) then Some(f) else None)
    decreases |frames|
  {
    var all := [f] + frames;
    if frames != [] {
      var n := |frames| - 1;
      assert all[|all| - 1] == frames[n];
      if !IsTerminal(frames[n]) {
        assert all[..|all| - 1] == [f] + frames[..n];
        LastTerminalPrepend(f, frames[..n]);
      }
    }
  }

  /** What reading lines gathers, stated without the loop: every progress frame
      is reported once, in order, and `finalResult` is the last terminal frame
      (or what it was before, when no line holds one). */
  lemma {:induction false} ReadLinesSpec(r: Reading, lines: seq<string>, parse: string -> Option<Frame>)
    ensures ReadLines(r, lines, parse).events == r.events + EventsOf(Frames(lines, parse))
    ensures ReadLines(r, lines, parse).final ==
      (if LastTerminal(Frames(lines, parse)).Some? then LastTerminal(Frames(lines, parse)) else r.final)
  {
    ReadLinesEvents(r, lines, parse);
    ReadLinesFinal(r, lines, parse);
  }

  /** The events half of `ReadLinesSpec`. */
  lemma {:induction false} ReadLinesEvents(r: Reading, lines: seq<string>, parse: string -> Option<Frame>)
    ensures ReadLines(r, lines, parse).events == r.events + EventsOf(Frames(lines, parse))
    decreases |lines|
  {
    if lines == [] {
      assert r.events + [] == r.events;
    } else {
      var r1 := ReadLine(r, lines[0], parse);
      var head := EventsOf(LineFrames(lines[0], parse));
      var tail := EventsOf(Frames(lines[1..], parse));
      ReadLinesEvents(r1, lines[1..], parse);
      ReadLineEvents(r, lines[0], parse);
      EventsOfConcat(LineFrames(lines[0], parse), Frames(lines[1..], parse));
      AppendAssoc(r.events, head, tail);
    }
  }

  /** The `finalResult` half of `ReadLinesSpec`. */
  lemma {:induction false} ReadLinesFinal(r: Reading, lines: seq<string>, parse: string -> Option<Frame>)
    ensures ReadLines(r, lines, parse).final ==
      (if LastTerminal(Frames(lines, parse)).Some? then LastTerminal(Frames(lines, parse)) else r.final)
    decreases |lines|
  {
    if lines != [] {
      var r1 := ReadLine(r, lines[0], parse);
      ReadLinesFinal(r1, lines[1..], parse);
      var rest := Frames(lines[1..], parse);
      if StartsWith(lines[0], DataPrefix) && parse(lines[0][6..]).Some? {
        var f := parse(lines[0][6..]).value;
        assert Frames(lines, parse) == [f] + rest;
        assert r1.final == if IsTerminal(f) then Some(f) else r.final;
        LastTerminalPrepend(f, rest);
      } else {
        assert Frames(lines, parse) == rest;
      }
    }
  }

  // ---------------------------------------------------------------------------
  // The terminal decision

  /** The result for a password frame: never an error, `success` false. */
  function PasswordResult(f: Frame): (r: Frame)
    ensures "success" in r && "requiresPassword" in r && "invalidPassword" in r
    ensures r["success"] == Bool(false)
    ensures Truthy(r["requiresPassword"]) <==> IsTruthy(Field(f, "requiresPassword"))
    ensures Truthy(r["invalidPassword"]) <==> IsTruthy(Field(f, "invalidPassword"))
  {
    map[
      "success" := Bool(false),
      "requiresPassword" := Or(Field(f, "requiresPassword"), Bool(false)),
      "invalidPassword" := Or(Field(f, "invalidPassword"), Bool(false)),
      "message" := Or(Field(f, "message"), Str("")),
      "progress" := Or(Field(f, "progress"), Num(0))]
  }

  /** How the call ends, given `finalResult`: a password request resolves, a
      success resolves with the frame itself, no terminal frame and any other
      terminal frame reject. */
  function Decide(final: Option<Frame>): (o: Outcome)
    ensures o.Returned? <==> (final.Some? && (IsTruthy(Field(final.value, "requiresPassword"))
      || IsTruthy(Field(final.value, "invalidPassword")) || IsTruthy(Field(final.value, "success"))))
    ensures final.Some? && (IsTruthy(Field(final.value, "requiresPassword")) || IsTruthy(Field(final.value, "invalidPassword")))
      ==> o.Returned? && !IsTruthy(Field(o.result, "success"))
    ensures o.Returned? && IsTruthy(Field(o.result, "success")) ==> o == Returned(final.value)
    ensures final.None? ==> o == Threw(Str(NotCompleted))
    ensures final.Some? && !IsTruthy(Field(final.value, "requiresPassword"))
      && !IsTruthy(Field(final.value, "invalidPassword")) && !IsTruthy(Field(final.value, "success"))
      ==> o == Threw(Or(Field(final.value, "error"), Or(Field(final.value, "message"), Str(ProcessingFailed))))
    ensures o.Threw? ==> Truthy(o.reason)
  {
    if final.Some? && (IsTruthy(Field(final.value, "requiresPassword")) || IsTruthy(Field(final.value, "invalidPassword"))) then
      Returned(PasswordResult(final.value))
    else if final.Some? && IsTruthy(Field(final.value, "success")) then
      Returned(final.value)
    else if final.None? then
      Threw(Str(NotCompleted))
    else
      Threw(Or(Field(final.value, "error"), Or(Field(final.value, "message"), Str(ProcessingFailed))))
  }

  function Concat(chunks: seq<string>): string
    decreases |chunks|
  {
    if chunks == [] then "" else Concat(chunks[..|chunks| - 1]) + chunks[|chunks| - 1]
  }

  /** Why a non-ok response rejects: the body's `error` when it is truthy,
      the default otherwise, or the runtime's error when the body cannot be read. */
  function RefusalReason(b: ErrorBody): (reason: JVal)
    ensures b.ObjectBody? && IsTruthy(Field(b.fields, "error")) ==> reason == b.fields["error"]
    ensures b.ObjectBody? && !IsTruthy(Field(b.fields, "error")) ==> reason == Str(UploadFailed)
    ensures b.OtherJson? ==> reason == Str(UploadFailed)
    ensures b.Unreadable? ==> reason == Str(b.message)
  {
    match b
    case ObjectBody(fields) => Or(Field(fields, "error"), Str(UploadFailed))
    case OtherJson => Str(UploadFailed)
    case Unreadable(message) => Str(message)
  }

  /** What the call reports and how it ends, stated on the whole body text. */
  function Expected(response: Response, parse: string -> Option<Frame>): (r: (seq<ProgressEvent>, Outcome))
    ensures !(response.HttpResponse? && response.ok && response.body.Some?) ==> r.0 == [] && r.1.Threw?
    ensures r.1.Returned? ==>
      IsTruthy(Field(r.1.result, "requiresPassword")) || IsTruthy(Field(r.1.result, "invalidPassword"))
      || IsTruthy(Field(r.1.result, "success"))
  {
    match response
    case NetworkError(m) => ([], Threw(Str(m)))
    case HttpResponse(ok, errorBody, body) =>
      if !ok then ([], Threw(RefusalReason(errorBody)))
      else if body.None? then ([], Threw(Str(StreamUnavailable)))
      else
        var frames := Frames(CompleteLines(Concat(body.value)), parse);
        (EventsOf(frames), Decide(LastTerminal(frames)))
  }

  lemma ReadLinesSnoc(r: Reading, lines: seq<string>, line: string, parse: string -> Option<Frame>)
    ensures ReadLines(r, lines + [line], parse) == ReadLine(ReadLines(r, lines, parse), line, parse)
  {
    ReadLinesAppend(r, lines, [line], parse);
    assert [line][1..] == [];
  }

  /** Reading one more chunk: the buffer stays the fragment of the text so far,
      and the lines read so far are the complete lines of that text. */
  lemma ChunkStep(chunks: seq<string>, k: nat, parse: string -> Option<Frame>)
    requires k < |chunks|
    ensures Fragment(Concat(chunks[..k + 1])) == Fragment(Fragment(Concat(chunks[..k])) + chunks[k])
    ensures ReadLines(Reading([], None), CompleteLines(Concat(chunks[..k + 1])), parse)
         == ReadLines(ReadLines(Reading([], None), CompleteLines(Concat(chunks[..k])), parse),
                      CompleteLines(Fragment(Concat(chunks[..k])) + chunks[k]), parse)
  {
    var text := Concat(chunks[..k]);
    assert chunks[..k + 1][..k] == chunks[..k];
    assert Concat(chunks[..k + 1]) == text + chunks[k];
    LinesOfConcat(text, chunks[k]);
    ReadLinesAppend(Reading([], None), CompleteLines(text), CompleteLines(Fragment(text) + chunks[k]), parse);
  }

  /** The body of the inner `for` loop: a `data: ` line whose JSON parses sets
      `finalResult` when it is terminal and is reported when it carries progress. */
  method ReadDataLine(events: seq<ProgressEvent>, finalResult: Option<Frame>, line: string, parse: string -> Option<Frame>)
    returns (events': seq<ProgressEvent>, finalResult': Option<Frame>)
    ensures Reading(events', finalResult') == ReadLine(Reading(events, finalResult), line, parse)
  {
    events', finalResult' := events, finalResult;
    if StartsWith(line, DataPrefix) {
      var parsed := parse(line[6..]);
      if parsed.Some? {
        var data := parsed.value;
        if "success" in data || "requiresPassword" in data || "invalidPassword" in data {
          finalResult' := Some(data);
        }
        if "progress" in data || "message" in data {
          events' := events' + [ToEvent(data)];
        }
      }
    }
  }

  /** `buffer.split('\n')` followed by `lines.pop()`: the complete lines, and
      the unterminated rest kept as the new buffer. */
  method SplitBuffer(buffer: string) returns (lines: seq<string>, rest: string)
    ensures lines == CompleteLines(buffer) && rest == Fragment(buffer)
    ensures Terminated(lines) + rest == buffer
  {
    var parts := Split(buffer, '\n');
    rest := parts[|parts| - 1];
    lines := parts[..|parts| - 1];
    SplitReassembles(buffer);
  }

  /** The inner `for` loop: the complete lines of one chunk, read in order. */
  method ReadDataLines(events: seq<ProgressEvent>, finalResult: Option<Frame>, lines: seq<string>, parse: string -> Option<Frame>)
    returns (events': seq<ProgressEvent>, finalResult': Option<Frame>)
    ensures Reading(events', finalResult') == ReadLines(Reading(events, finalResult), lines, parse)
  {
    events', finalResult' := events, finalResult;
    for j := 0 to |lines|
      invariant Reading(events', finalResult') == ReadLines(Reading(events, finalResult), lines[..j], parse)
    {
      var line := lines[j];
      events', finalResult' := ReadDataLine(events', finalResult', line, parse);
      ReadLinesSnoc(Reading(events, finalResult), lines[..j], line, parse);
      assert lines[..j + 1] == lines[..j] + [line];
    }
    assert lines[..|lines|] == lines;
  }

  /** Reading a whole readable body gives what `Expected` states. */
  lemma BodyOutcome(errorBody: ErrorBody, chunks: seq<string>, parse: string -> Option<Frame>)
    ensures var r := ReadLines(Reading([], None), CompleteLines(Concat(chunks)), parse);
      Expected(HttpResponse(true, errorBody, Some(chunks)), parse) == (r.events, Decide(r.final))
  {
    var frames := Frames(CompleteLines(Concat(chunks)), parse);
    ReadLinesSpec(Reading([], None), CompleteLines(Concat(chunks)), parse);
    assert [] + EventsOf(frames) == EventsOf(frames);
  }

  const StreamPath := "/upload/stream"

  /** The address the upload is posted to, as written: the configured base
      (or the local default) taken as it is, without the normalization the
      HTTP client applies to the same setting. */
  function StreamUrlAsWritten(configured: Option<string>): (url: string)
    ensures configured.None? || configured == Some("") ==> url == Api.DefaultApiUrl + StreamPath
    ensures configured.Some? && configured.value != "" ==> url == configured.value + StreamPath
  {
    (if configured.Some? && configured.value != "" then configured.value else Api.DefaultApiUrl) + StreamPath
  }

  /** A base configured without `/api` and without a trailing slash, which the
      HTTP client completes with `/api`, sends the upload to a path outside the
      client's base. */
  lemma StreamUrlAsWrittenMissesApi(base: string)
    requires base != "" && base[|base| - 1] != '/' && !EndsWith(base, Api.ApiSuffix)
    ensures Api.ApiUrl(Some(base)) == base + Api.ApiSuffix
    ensures StreamUrlAsWritten(Some(base)) == base + StreamPath
    ensures !StartsWith(StreamUrlAsWritten(Some(base)), Api.ApiUrl(Some(base)))
  {
    Api.StripWithoutSlash(base);
    Api.NormalizeAddsApi(base);
    var url := base + StreamPath;
    var api := base + Api.ApiSuffix;
    assert url[|base| + 1] == StreamPath[1] == 'u';
    assert api[|base| + 1] == Api.ApiSuffix[1] == 'a';
  }

  /** The same on `https://host`. */
  lemma HostStreamUrlMissesApi()
    ensures !StartsWith(StreamUrlAsWritten(Some("https://host")), Api.ApiUrl(Some("https://host")))
  {
    assert "https://host"[8..] != Api.ApiSuffix by {
      assert "https://host"[8..][0] == 'h' != Api.ApiSuffix[0];
    }
    StreamUrlAsWrittenMissesApi("https://host");
  }

  /** The address the upload is posted to, on the same base as every other
      request: the client's normalized address followed by the stream path. */
  function StreamUrl(configured: Option<string>): (url: string)
    ensures StartsWith(url, Api.ApiUrl(configured)) && EndsWith(url, StreamPath)
    ensures EndsWith(url[..|url| - |StreamPath|], Api.ApiSuffix)
    ensures configured.None? || configured == Some("") ==> url == StreamUrlAsWritten(configured)
  {
    var base := Api.ApiUrl(configured);
    AppendParts(base, StreamPath);
    base + StreamPath
  }

  /** `uploadFileWithProgressSSE`: the address and the fields of the request it
      sends, the events it hands to `onProgress` in order, and how it ends. */
  method UploadFileWithProgress(
    configured: Option<string>, file: File, password: Option<string>, referenceMonth: Option<string>,
    response: Response, parse: string -> Option<Frame>)
    returns (url: string, fields: seq<(string, FormValue)>, events: seq<ProgressEvent>, outcome: Outcome)
    ensures url == StreamUrlAsWritten(configured)
    ensures fields == FormFields(file, password, referenceMonth)
    ensures (events, outcome) == Expected(response, parse)
  {
    url := StreamUrlAsWritten(configured);
    fields := FormFields(file, password, referenceMonth);
    events := [];
    if response.NetworkError? {
      outcome := Threw(Str(response.message));
      return;
    }
    if !response.ok {
      outcome := Threw(RefusalReason(response.errorBody));
      return;
    }
    if response.body.None? {
      outcome := Threw(Str(StreamUnavailable));
      return;
    }
    var chunks := response.body.value;
    var buffer := "";
    var finalResult: Option<Frame> := None;
    var k := 0;
    while k < |chunks|
      invariant 0 <= k <= |chunks|
      invariant buffer == Fragment(Concat(chunks[..k]))
      invariant Reading(events, finalResult) == ReadLines(Reading([], None), CompleteLines(Concat(chunks[..k])), parse)
    {
      var lines;
      lines, buffer := SplitBuffer(buffer + chunks[k]);
      events, finalResult := ReadDataLines(events, finalResult, lines, parse);
      ChunkStep(chunks, k, parse);
      k := k + 1;
    }
    assert chunks[..k] == chunks;
    BodyOutcome(response.errorBody, chunks, parse);
    outcome := Decide(finalResult);
  }

  /** A last frame the server sends without a trailing `'\n'` changes nothing. */
  lemma UnterminatedFrameIgnored(ok: bool, errorBody: ErrorBody, chunks: seq<string>, line: string, parse: string -> Option<Frame>)
    requires Concat(chunks) == [] || Concat(chunks)[|Concat(chunks)| - 1] == '\n'
    requires '\n' !in line
    ensures Expected(HttpResponse(ok, errorBody, Some(chunks + [line])), parse)
         == Expected(HttpResponse(ok, errorBody, Some(chunks)), parse)
  {
    assert (chunks + [line])[..|chunks|] == chunks;
    UnterminatedLineIgnored(Concat(chunks), line);
  }
}
