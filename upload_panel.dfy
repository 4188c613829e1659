/** The upload tab of the "new transaction" modal: the state the page keeps
    for it (the chosen file, the progress bar, the password prompt, the
    reference month) and the handlers that change that state, including the
    two streaming uploads and what their callbacks and results do. */
module UploadFlow {
  import opened Text
  import opened Js
  import opened UploadStream
  import opened UploadForm

  datatype Tab = Manual | Upload

  datatype ToastKind = ErrorToast | WarningToast

  /** A notification shown by the page. */
  datatype Toast = Toast(kind: ToastKind, text: string)

  const SelectFileFirst := "Por favor, selecione um arquivo primeiro."
  const SelectMonthFirst := "Por favor, selecione o mês de referência antes de processar."
  const StartingUpload := "Iniciando upload..."
  const ProcessingWithPassword := "Processando com senha..."
  const ErrorPrefix := "❌ Erro: "

  /** The upload state of the page. `progress` and `message` hold whatever
      the stream reported; `reloads` counts the calls to `loadTransactions`. */
  datatype Panel = Panel(
    file: Option<File>,
    uploading: bool,
    progress: JVal,
    message: JVal,
    requiresPassword: bool,
    invalidPassword: bool,
    password: string,
    showModal: bool,
    tab: Tab,
    referenceMonth: int,
    reloads: nat,
    toasts: seq<Toast>)

  predicate ValidMonth(m: int) {
    1 <= m <= 12
  }

  // ---------------------------------------------------------------------------
  // Transitions, stated on values

  /** `handleFileSelect`: an accepted file replaces the chosen one and resets
      the upload state; a refused one only raises an error toast. */
  function SelectFileStep(p: Panel, file: File): (q: Panel)
    ensures CheckFile(file) == Accepted ==>
      q == p.(file := Some(file), uploading := false, progress := Num(0), message := Str(""),
              requiresPassword := false, invalidPassword := false, password := "")
    ensures CheckFile(file) != Accepted ==>
      q == p.(toasts := p.toasts + [Toast(ErrorToast, RefusalMessage(CheckFile(file)))])
  {
    var c := CheckFile(file);
    if c != Accepted then p.(toasts := p.toasts + [Toast(ErrorToast, RefusalMessage(c))])
    else p.(file := Some(file), uploading := false, progress := Num(0), message := Str(""),
            requiresPassword := false, invalidPassword := false, password := "")
  }

  /** What a finished import does: close the modal, forget the file and the
      password, clear the progress and reload the list. */
  function Finish(p: Panel): (q: Panel)
    ensures q.file.None? && !q.showModal && !q.uploading && !q.requiresPassword && q.password == ""
    ensures q.reloads == p.reloads + 1
  {
    p.(file := None, showModal := false, uploading := false, progress := Num(0), message := Str(""),
       requiresPassword := false, password := "", reloads := p.reloads + 1)
  }

  /** A progress event announcing a completed import. */
  predicate AnnouncesSuccess(e: ProgressEvent) {
    e.success == Some(Bool(true)) && e.transactionsCreated.Some?
  }

  /** The progress callback of the first upload. */
  function UploadEvent(p: Panel, e: ProgressEvent): (q: Panel)
    ensures q.reloads == p.reloads ==> q.progress == e.progress && q.message == e.message
    ensures IsTruthy(e.requiresPassword) ==> q.requiresPassword && !q.uploading && q.file == p.file
    ensures !IsTruthy(e.requiresPassword) && IsTruthy(e.invalidPassword) ==> q.invalidPassword && q.file == p.file
    ensures q.reloads == p.reloads + (if !IsTruthy(e.requiresPassword) && !IsTruthy(e.invalidPassword)
      && AnnouncesSuccess(e) then 1 else 0)
  {
    var shown := p.(progress := e.progress, message := e.message);
    if IsTruthy(e.requiresPassword) then shown.(requiresPassword := true, uploading := false)
    else if IsTruthy(e.invalidPassword) then shown.(invalidPassword := true)
    else if AnnouncesSuccess(e) then Finish(shown)
    else shown
  }

  /** The progress callback of the password retry: it does not stop at a wrong
      password, and it does not look at `requiresPassword`. */
  function PasswordEvent(p: Panel, e: ProgressEvent): (q: Panel)
    ensures AnnouncesSuccess(e) ==> q == Finish(p.(progress := e.progress, message := e.message,
      invalidPassword := p.invalidPassword || IsTruthy(e.invalidPassword)))
    ensures !AnnouncesSuccess(e) && IsTruthy(e.invalidPassword) ==>
      q == p.(progress := e.progress, message := e.message, invalidPassword := true, uploading := false)
    ensures !AnnouncesSuccess(e) && !IsTruthy(e.invalidPassword) ==>
      q == p.(progress := e.progress, message := e.message)
  {
    var shown := p.(progress := e.progress, message := e.message);
    var checked := if IsTruthy(e.invalidPassword) then shown.(invalidPassword := true, uploading := false) else shown;
    if AnnouncesSuccess(e) then Finish(checked) else checked
  }

  /** The callbacks of a whole stream, in order. */
  function UploadEvents(p: Panel, events: seq<ProgressEvent>): (q: Panel)
    ensures q.tab == p.tab && q.referenceMonth == p.referenceMonth && q.toasts == p.toasts
    ensures q.reloads <= p.reloads + |events|
    decreases |events|
  {
    if events == [] then p else UploadEvent(UploadEvents(p, events[..|events| - 1]), events[|events| - 1])
  }

  function PasswordEvents(p: Panel, events: seq<ProgressEvent>): (q: Panel)
    ensures q.tab == p.tab && q.referenceMonth == p.referenceMonth && q.toasts == p.toasts
    ensures q.reloads <= p.reloads + |events|
    decreases |events|
  {
    if events == [] then p else PasswordEvent(PasswordEvents(p, events[..|events| - 1]), events[|events| - 1])
  }

  /** `❌ Erro: ${error.message || 'Erro ao processar arquivo'}`. */
  function ErrorText(reason: JVal): (t: string)
    ensures StartsWith(t, ErrorPrefix) && |t| > |ErrorPrefix|
  {
    var m := Render(reason);
    ErrorPrefix + (if m != "" then m else ProcessingFailed)
  }

  /** What the first upload does with the call's outcome. `hadPasswordRequest`
      is the `requiresPassword` the handler saw when it was invoked: an error
      after a password request is not shown. */
  function UploadResult(p: Panel, hadPasswordRequest: bool, outcome: Outcome): (q: Panel)
    ensures q.tab == p.tab && q.referenceMonth == p.referenceMonth && q.toasts == p.toasts
    ensures q.reloads <= p.reloads + 1
    ensures outcome.Returned? && IsTruthy(Field(outcome.result, "requiresPassword")) ==>
      q == p.(requiresPassword := true, uploading := false, progress := Num(0))
    ensures outcome.Threw? && hadPasswordRequest ==> q == p
    ensures outcome.Threw? && !hadPasswordRequest ==>
      q == p.(message := Str(ErrorText(outcome.reason)), progress := Num(0))
  {
    match outcome
    case Returned(result) =>
      if IsTruthy(Field(result, "requiresPassword")) then p.(requiresPassword := true, uploading := false, progress := Num(0))
      else if IsTruthy(Field(result, "invalidPassword")) then p.(invalidPassword := true, uploading := false)
      else if IsTruthy(Field(result, "success")) then Finish(p)
      else p
    case Threw(reason) =>
      if hadPasswordRequest then p
      else p.(message := Str(ErrorText(reason)), progress := Num(0))
  }

  /** What the password retry does with the call's outcome. */
  function PasswordResultStep(p: Panel, outcome: Outcome): (q: Panel)
    ensures q.tab == p.tab && q.referenceMonth == p.referenceMonth && q.toasts == p.toasts
    ensures q.reloads <= p.reloads + 1
    ensures outcome.Threw? ==> q == p.(message := Str(ErrorText(outcome.reason)), progress := Num(0), uploading := false)
    ensures outcome.Returned? && IsTruthy(Field(outcome.result, "invalidPassword")) ==>
      q == p.(invalidPassword := true, uploading := false)
    ensures outcome.Returned? && !IsTruthy(Field(outcome.result, "invalidPassword"))
      && IsTruthy(Field(outcome.result, "success"))
      ==> q == Finish(p)
    ensures outcome.Returned? && !IsTruthy(Field(outcome.result, "invalidPassword"))
      && !IsTruthy(Field(outcome.result, "success"))
      ==> q == p
  {
    match outcome
    case Returned(result) =>
      if IsTruthy(Field(result, "invalidPassword")) then p.(invalidPassword := true, uploading := false)
      else if IsTruthy(Field(result, "success")) then Finish(p)
      else p
    case Threw(reason) =>
      p.(message := Str(ErrorText(reason)), progress := Num(0), uploading := false)
  }

  /** `handleUploadAndProcess` as a whole: the guards, the flags set before the
      call, the callbacks for the events the stream reports, and the result. */
  function UploadAndProcessStep(p: Panel, year: nat, response: Response, parse: string -> Option<Frame>): (q: Panel)
    ensures q.tab == p.tab && q.referenceMonth == p.referenceMonth
    ensures p.file.Some? && ValidMonth(p.referenceMonth) ==> q.toasts == p.toasts
    ensures q.reloads <= p.reloads + |Expected(response, parse).0| + 1
  {
    if p.file.None? then p.(toasts := p.toasts + [Toast(WarningToast, SelectFileFirst)])
    else if !ValidMonth(p.referenceMonth) then p.(toasts := p.toasts + [Toast(WarningToast, SelectMonthFirst)])
    else
      var started := p.(uploading := true, progress := Num(0), message := Str(StartingUpload),
                        requiresPassword := false, invalidPassword := false);
      var (events, outcome) := Expected(response, parse);
      UploadResult(UploadEvents(started, events), p.requiresPassword, outcome)
  }

  /** `handlePasswordSubmit` as a whole. The month guard comes after the flags
      are set, so a refused month leaves the panel uploading. */
  function PasswordSubmitStep(p: Panel, year: nat, response: Response, parse: string -> Option<Frame>): (q: Panel)
    ensures q.tab == p.tab && q.referenceMonth == p.referenceMonth
    ensures p.file.Some? && Trim(p.password) != "" && ValidMonth(p.referenceMonth) ==> q.toasts == p.toasts
    ensures q.reloads <= p.reloads + |Expected(response, parse).0| + 1
  {
    if p.file.None? || Trim(p.password) == "" then p
    else
      var started := p.(invalidPassword := false, uploading := true, progress := Num(0),
                        message := Str(ProcessingWithPassword));
      if !ValidMonth(p.referenceMonth) then started.(toasts := started.toasts + [Toast(WarningToast, SelectMonthFirst)])
      else
        var (events, outcome) := Expected(response, parse);
        PasswordResultStep(PasswordEvents(started, events), outcome)
  }

  /** Closing the modal (the overlay, the × button and the Cancel buttons):
      the file is dropped and the month goes back to the current one. The
      Cancel button of the manual tab stores the month as a number here too;
      see `CancelManualAsWritten` for what it stores in the page. */
  function CloseModalStep(p: Panel, currentMonth: int): (q: Panel)
    ensures !q.showModal && q.file.None? && q.tab == Manual && q.referenceMonth == currentMonth
  {
    p.(showModal := false, file := None, tab := Manual, referenceMonth := currentMonth)
  }

  // ---------------------------------------------------------------------------
  // Properties of the flow

  /** Without a file, or with a month outside 1..12, the upload is not started:
      only a warning is added. */
  lemma UploadGuards(p: Panel, year: nat, response: Response, parse: string -> Option<Frame>)
    requires p.file.None? || !ValidMonth(p.referenceMonth)
    ensures var q := UploadAndProcessStep(p, year, response, parse);
      q == p.(toasts := q.toasts) && |q.toasts| == |p.toasts| + 1 && q.toasts[|p.toasts|].kind == WarningToast
  {
  }

  /** A password retry without a file or with a blank password does nothing. */
  lemma PasswordGuard(p: Panel, year: nat, response: Response, parse: string -> Option<Frame>)
    requires p.file.None? || Trim(p.password) == ""
    ensures PasswordSubmitStep(p, year, response, parse) == p
  {
  }

  /** The password retry with a refused month: the warning is shown, and the
      panel stays uploading with nothing left to finish it. */
  lemma PasswordBadMonthStaysUploading(p: Panel, year: nat, response: Response, parse: string -> Option<Frame>)
    requires p.file.Some? && Trim(p.password) != "" && !ValidMonth(p.referenceMonth)
    ensures var q := PasswordSubmitStep(p, year, response, parse);
      q.uploading && q.message == Str(ProcessingWithPassword) && q.file == p.file
  {
  }

  /** The callbacks never change the file unless an event announces success,
      and never touch the password, the month or the toasts unless they finish. */
  lemma {:induction false} UploadEventsKeepFile(p: Panel, events: seq<ProgressEvent>)
    requires forall k :: 0 <= k < |events| ==> !AnnouncesSuccess(events[k])
    ensures var q := UploadEvents(p, events);
      q.file == p.file && q.password == p.password && q.showModal == p.showModal && q.reloads == p.reloads
      && q.referenceMonth == p.referenceMonth && q.toasts == p.toasts
    decreases |events|
  {
    if events != [] {
      UploadEventsKeepFile(p, events[..|events| - 1]);
    }
  }

  /** A password request from the server, whatever the stream reported before
      it, leaves the panel waiting for a password with the file still chosen,
      so the retry can start. */
  lemma PasswordRequestKeepsFile(p: Panel, year: nat, ok: bool, errorBody: ErrorBody, chunks: seq<string>,
                                 parse: string -> Option<Frame>)
    requires p.file.Some? && ValidMonth(p.referenceMonth)
    requires var (events, outcome) := Expected(HttpResponse(ok, errorBody, Some(chunks)), parse);
      (forall k :: 0 <= k < |events| ==> !AnnouncesSuccess(events[k]))
      && outcome.Returned? && IsTruthy(Field(outcome.result, "requiresPassword"))
    ensures var q := UploadAndProcessStep(p, year, HttpResponse(ok, errorBody, Some(chunks)), parse);
      q.requiresPassword && !q.uploading && q.file == p.file && q.showModal == p.showModal
  {
    var started := p.(uploading := true, progress := Num(0), message := Str(StartingUpload),
                      requiresPassword := false, invalidPassword := false);
    var (events, outcome) := Expected(HttpResponse(ok, errorBody, Some(chunks)), parse);
    UploadEventsKeepFile(started, events);
  }

  /** A successful import closes the modal, forgets the file and reloads the list. */
  lemma SuccessFinishes(p: Panel, year: nat, response: Response, parse: string -> Option<Frame>)
    requires p.file.Some? && ValidMonth(p.referenceMonth)
    requires var (_, outcome) := Expected(response, parse);
      outcome.Returned? && IsTruthy(Field(outcome.result, "success"))
    ensures var q := UploadAndProcessStep(p, year, response, parse);
      q.file.None? && !q.showModal && !q.uploading && q.password == "" && q.reloads > p.reloads
  {
    var started := p.(uploading := true, progress := Num(0), message := Str(StartingUpload),
                      requiresPassword := false, invalidPassword := false);
    var (events, outcome) := Expected(response, parse);
    UploadEventsReloads(started, events);
    assert outcome == Returned(outcome.result);
    assert !IsTruthy(Field(outcome.result, "requiresPassword")) && !IsTruthy(Field(outcome.result, "invalidPassword")) by {
      var last := LastTerminal(Frames(CompleteLines(Concat(response.body.value)), parse));
      assert outcome == Decide(last);
    }
  }

  /** The callbacks only ever add reloads. */
  lemma {:induction false} UploadEventsReloads(p: Panel, events: seq<ProgressEvent>)
    ensures UploadEvents(p, events).reloads >= p.reloads
    decreases |events|
  {
    if events != [] {
      UploadEventsReloads(p, events[..|events| - 1]);
    }
  }

  /** The retry's callbacks never change the file or the password unless an
      event announces success; they only ever add reloads. */
  lemma {:induction false} PasswordEventsKeepFile(p: Panel, events: seq<ProgressEvent>)
    requires forall k :: 0 <= k < |events| ==> !AnnouncesSuccess(events[k])
    ensures var q := PasswordEvents(p, events);
      q.file == p.file && q.password == p.password && q.showModal == p.showModal && q.reloads == p.reloads
      && q.referenceMonth == p.referenceMonth && q.toasts == p.toasts
    decreases |events|
  {
    if events != [] {
      PasswordEventsKeepFile(p, events[..|events| - 1]);
    }
  }

  lemma {:induction false} PasswordEventsReloads(p: Panel, events: seq<ProgressEvent>)
    ensures PasswordEvents(p, events).reloads >= p.reloads
    decreases |events|
  {
    if events != [] {
      PasswordEventsReloads(p, events[..|events| - 1]);
    }
  }

  /** A wrong password stops the retry and marks the password wrong, with the
      file, the password and the modal kept, so the user can type it again. */
  lemma WrongPasswordKeepsFile(p: Panel, year: nat, response: Response, parse: string -> Option<Frame>)
    requires p.file.Some? && Trim(p.password) != "" && ValidMonth(p.referenceMonth)
    requires var (events, outcome) := Expected(response, parse);
      (forall k :: 0 <= k < |events| ==> !AnnouncesSuccess(events[k]))
      && outcome.Returned? && IsTruthy(Field(outcome.result, "invalidPassword"))
    ensures var q := PasswordSubmitStep(p, year, response, parse);
      q.invalidPassword && !q.uploading && q.file == p.file && q.password == p.password
      && q.showModal == p.showModal && q.reloads == p.reloads
  {
    var started := p.(invalidPassword := false, uploading := true, progress := Num(0),
                      message := Str(ProcessingWithPassword));
    var (events, outcome) := Expected(response, parse);
    PasswordEventsKeepFile(started, events);
  }

  /** A retry the server accepts closes the modal, forgets the file and the
      password and reloads the list. */
  lemma PasswordSuccessFinishes(p: Panel, year: nat, response: Response, parse: string -> Option<Frame>)
    requires p.file.Some? && Trim(p.password) != "" && ValidMonth(p.referenceMonth)
    requires var (_, outcome) := Expected(response, parse);
      outcome.Returned? && IsTruthy(Field(outcome.result, "success"))
    ensures var q := PasswordSubmitStep(p, year, response, parse);
      q.file.None? && !q.showModal && !q.uploading && q.password == "" && q.reloads > p.reloads
  {
    var started := p.(invalidPassword := false, uploading := true, progress := Num(0),
                      message := Str(ProcessingWithPassword));
    var (events, outcome) := Expected(response, parse);
    PasswordEventsReloads(started, events);
    assert outcome == Returned(outcome.result);
    assert !IsTruthy(Field(outcome.result, "invalidPassword")) by {
      var last := LastTerminal(Frames(CompleteLines(Concat(response.body.value)), parse));
      assert outcome == Decide(last);
    }
  }

  /** A failure of the first upload is shown, unless a password request was
      already showing when the handler started. */
  lemma UploadFailureShown(p: Panel, year: nat, message: string, parse: string -> Option<Frame>)
    requires p.file.Some? && ValidMonth(p.referenceMonth)
    ensures var q := UploadAndProcessStep(p, year, NetworkError(message), parse);
      q.uploading
      && (p.requiresPassword ==> q.message == Str(StartingUpload))
      && (!p.requiresPassword ==> q.message == Str(ErrorText(Str(message))) && q.progress == Num(0))
  {
  }

  // ---------------------------------------------------------------------------
  // The reference month as the page stores it after the manual Cancel button

  /** What the page's `referenceMonth` state can hold: the number picked in
      the select, or the text the manual tab's Cancel button stores. */
  datatype MonthValue = MonthNumber(n: int) | MonthText(text: string)

  /** A text of digits, a dash, digits: `Number` of it is `NaN`. */
  predicate DashedDigits(s: string) {
    '-' in s && IsDigits(s[..Find(s, '-')]) && IsDigits(s[Find(s, '-') + 1..])
  }

  /** The manual tab's Cancel button stores `${year}-${month padded}`, a text. */
  function CancelManualAsWritten(year: nat, month: nat): (v: MonthValue)
    ensures v.MonthText? && DashedDigits(v.text)
  {
    MonthKeyParts(year, month);
    PadDigits(NatToString(month));
    MonthText(MonthKey(year, month))
  }

  /** `!referenceMonth || referenceMonth < 1 || referenceMonth > 12`. A
      non-empty text is truthy, and both comparisons of `NaN` are false. */
  function MonthRejectedAsWritten(v: MonthValue): bool
    requires v.MonthText? ==> DashedDigits(v.text)
  {
    match v
    case MonthNumber(n) => n == 0 || n < 1 || n > 12
    case MonthText(s) => s == ""
  }

  /** `${currentYear}-${String(referenceMonth).padStart(2, '0')}`. */
  function ReferenceMonthAsWritten(year: nat, v: MonthValue): string {
    NatToString(year) + "-" + PadStart2(match v case MonthNumber(n) => IntToString(n) case MonthText(s) => s)
  }

  /** After the manual Cancel button, an upload passes the month guard and
      sends the year twice, a value that does not read as "YYYY-MM". */
  lemma CancelThenUploadAsWritten(year: nat, currentYear: nat, month: nat)
    requires 1 <= month <= 12
    ensures var v := CancelManualAsWritten(currentYear, month);
      !MonthRejectedAsWritten(v)
      && ReferenceMonthAsWritten(year, v) == NatToString(year) + "-" + MonthKey(currentYear, month)
      && ParseMonthKey(ReferenceMonthAsWritten(year, v)) == None
  {
    var key := MonthKey(currentYear, month);
    var sent := NatToString(year) + "-" + key;
    var y := NatToString(year);
    assert sent[|y|] == '-' && sent[..|y|] == y;
    FindAt(sent, '-', |y|);
    var cy := NatToString(currentYear);
    assert sent[|y| + 1..] == key;
    assert key[|cy|] == '-';
  }

  lemma Year2026Text()
    ensures NatToString(2026) == "2026"
  {
    assert NatToString(2) == "2";
    assert NatToString(20) == "20";
    assert NatToString(202) == "202";
  }

  lemma TenText()
    ensures NatToString(10) == "10"
  {
    assert NatToString(1) == "1";
    assert NatToString(10) == NatToString(1) + [DigitChar(0)];
  }

  lemma October2026Key()
    ensures MonthKey(2026, 10) == "2026-10"
  {
    Year2026Text();
    TenText();
    calc {
      MonthKey(2026, 10);
      NatToString(2026) + "-" + PadStart2(NatToString(10));
      "2026" + "-" + PadStart2("10");
      "2026" + "-" + "10";
    }
  }

  lemma SentText()
    ensures "2026" + "-" + "2026-10" == "2026-2026-10"
  {
  }

  /** The concrete case: in 2026, cancelling in October and then uploading
      sends "2026-2026-10" (the guard lets it through by `CancelThenUploadAsWritten`). */
  lemma CancelInOctober2026()
    ensures ReferenceMonthAsWritten(2026, CancelManualAsWritten(2026, 10)) == "2026-2026-10"
  {
    var v := CancelManualAsWritten(2026, 10);
    October2026Key();
    assert v == MonthText("2026-10");
    Year2026Text();
    calc {
      ReferenceMonthAsWritten(2026, v);
      NatToString(2026) + "-" + PadStart2("2026-10");
      "2026" + "-" + "2026-10";
      { SentText(); }
      "2026-2026-10";
    }
  }

  /** With the month stored as a number, as the other close buttons do, the
      next upload passes the guard and sends a key that reads back as the
      year and month. */
  lemma CloseThenUpload(p: Panel, year: nat, currentMonth: int)
    requires ValidMonth(currentMonth)
    ensures var q := CloseModalStep(p, currentMonth);
      ValidMonth(q.referenceMonth) && ParseMonthKey(MonthKey(year, q.referenceMonth)) == Some((year, currentMonth))
  {
    MonthKeyRoundTrip(year, currentMonth);
  }

  // ---------------------------------------------------------------------------
  // The page's state and its handlers

  class UploadPanel {
    var file: Option<File>
    var uploading: bool
    var progress: JVal
    var message: JVal
    var requiresPassword: bool
    var invalidPassword: bool
    var password: string
    var showModal: bool
    var tab: Tab
    var referenceMonth: int
    var reloads: nat
    var toasts: seq<Toast>

    function State(): Panel
      reads this
    {
      Panel(file, uploading, progress, message, requiresPassword, invalidPassword, password,
            showModal, tab, referenceMonth, reloads, toasts)
    }

    /** The initial state: nothing chosen, the current month selected. */
    constructor (currentMonth: int)
      ensures State() == Panel(None, false, Num(0), Str(""), false, false, "", false, Manual, currentMonth, 0, [])
    {
      file, uploading, progress, message := None, false, Num(0), Str("");
      requiresPassword, invalidPassword, password := false, false, "";
      showModal, tab, referenceMonth, reloads, toasts := false, Manual, currentMonth, 0, [];
    }

    method OpenModal()
      modifies this
      ensures State() == old(State()).(showModal := true)
    {
      showModal := true;
    }

    method SelectTab(t: Tab)
      modifies this
      ensures State() == old(State()).(tab := t)
    {
      tab := t;
    }

    method SelectFile(f: File)
      modifies this
      ensures State() == SelectFileStep(old(State()), f)
    {
      var c := CheckFile(f);
      if c != Accepted {
        toasts := toasts + [Toast(ErrorToast, RefusalMessage(c))];
        return;
      }
      TakeFile(f);
    }

    /** The accepted branch of `handleFileSelect`: the file is kept and the
        previous run's progress and password are forgotten. */
    method TakeFile(f: File)
      modifies this
      ensures State() == old(State()).(file := Some(f), uploading := false, progress := Num(0), message := Str(""),
                                       requiresPassword := false, invalidPassword := false, password := "")
    {
      file := Some(f);
      uploading := false;
      progress := Num(0);
      message := Str("");
      requiresPassword := false;
      invalidPassword := false;
      password := "";
    }

    method RemoveFile()
      modifies this
      ensures State() == old(State()).(file := None)
    {
      file := None;
    }

    /** The month select: `parseInt` of the chosen option. */
    method SelectMonth(m: int)
      modifies this
      ensures State() == old(State()).(referenceMonth := m)
    {
      referenceMonth := m;
    }

    /** Typing in the password field also clears the wrong-password notice. */
    method EditPassword(text: string)
      modifies this
      ensures State() == old(State()).(password := text, invalidPassword := false)
    {
      password := text;
      invalidPassword := false;
    }

    method CloseModal(currentMonth: int)
      modifies this
      ensures State() == CloseModalStep(old(State()), currentMonth)
    {
      showModal := false;
      file := None;
      tab := Manual;
      referenceMonth := currentMonth;
    }

    /** The timer set after a failed first upload, when it fires. */
    method ErrorTimerFires()
      modifies this
      ensures State() == old(State()).(file := None, uploading := false, message := Str(""))
    {
      file := None;
      uploading := false;
      message := Str("");
    }

    method FinishImport()
      modifies this
      ensures State() == Finish(old(State()))
    {
      file := None;
      showModal := false;
      uploading := false;
      progress := Num(0);
      message := Str("");
      requiresPassword := false;
      password := "";
      reloads := reloads + 1;
    }

    method OnUploadEvent(e: ProgressEvent)
      modifies this
      ensures State() == UploadEvent(old(State()), e)
    {
      progress := e.progress;
      message := e.message;
      if IsTruthy(e.requiresPassword) {
        requiresPassword := true;
        uploading := false;
        return;
      }
      if IsTruthy(e.invalidPassword) {
        invalidPassword := true;
        return;
      }
      if e.success == Some(Bool(true)) && e.transactionsCreated.Some? {
        FinishImport();
      }
    }

    method OnPasswordEvent(e: ProgressEvent)
      modifies this
      ensures State() == PasswordEvent(old(State()), e)
    {
      progress := e.progress;
      message := e.message;
      if IsTruthy(e.invalidPassword) {
        invalidPassword := true;
        uploading := false;
      }
      if e.success == Some(Bool(true)) && e.transactionsCreated.Some? {
        FinishImport();
      }
    }

    /** The progress callback of the first upload, called for each event in turn. */
    method RunUploadEvents(events: seq<ProgressEvent>)
      modifies this
      ensures State() == UploadEvents(old(State()), events)
    {
      ghost var started := State();
      for i := 0 to |events|
        invariant State() == UploadEvents(started, events[..i])
      {
        OnUploadEvent(events[i]);
        assert events[..i + 1][..i] == events[..i];
      }
      assert events[..|events|] == events;
    }

    method RunPasswordEvents(events: seq<ProgressEvent>)
      modifies this
      ensures State() == PasswordEvents(old(State()), events)
    {
      ghost var started := State();
      for i := 0 to |events|
        invariant State() == PasswordEvents(started, events[..i])
      {
        OnPasswordEvent(events[i]);
        assert events[..i + 1][..i] == events[..i];
      }
      assert events[..|events|] == events;
    }

    /** The code after the first upload's call: its result, or its `catch`. */
    method ApplyUploadResult(hadPasswordRequest: bool, outcome: Outcome)
      modifies this
      ensures State() == UploadResult(old(State()), hadPasswordRequest, outcome)
    {
      match outcome {
        case Returned(result) =>
          if IsTruthy(Field(result, "requiresPassword")) {
            requiresPassword := true;
            uploading := false;
            progress := Num(0);
            return;
          }
          if IsTruthy(Field(result, "invalidPassword")) {
            invalidPassword := true;
            uploading := false;
            return;
          }
          if IsTruthy(Field(result, "success")) {
            FinishImport();
          }
        case Threw(reason) =>
          if hadPasswordRequest {
            return;
          }
          message := Str(ErrorText(reason));
          progress := Num(0);
      }
    }

    method ApplyPasswordResult(outcome: Outcome)
      modifies this
      ensures State() == PasswordResultStep(old(State()), outcome)
    {
      match outcome {
        case Returned(result) =>
          if IsTruthy(Field(result, "invalidPassword")) {
            invalidPassword := true;
            uploading := false;
            return;
          }
          if IsTruthy(Field(result, "success")) {
            FinishImport();
          }
        case Threw(reason) =>
          message := Str(ErrorText(reason));
          progress := Num(0);
          uploading := false;
      }
    }

    /** `handleUploadAndProcess`. The request fields it sends are returned. */
    method UploadAndProcess(configured: Option<string>, year: nat, response: Response, parse: string -> Option<Frame>)
      returns (sent: Option<seq<(string, FormValue)>>)
      modifies this
      ensures State() == UploadAndProcessStep(old(State()), year, response, parse)
      ensures sent.Some? <==> old(file).Some? && ValidMonth(old(referenceMonth))
      ensures sent.Some? ==> sent == Some(FormFields(old(file).value, None, Some(MonthKey(year, old(referenceMonth)))))
    {
      sent := None;
      if file.None? {
        toasts := toasts + [Toast(WarningToast, SelectFileFirst)];
        return;
      }
      if !ValidMonth(referenceMonth) {
        toasts := toasts + [Toast(WarningToast, SelectMonthFirst)];
        return;
      }
      var hadPasswordRequest := requiresPassword;
      BeginUploadRun();
      var _, fields, events, outcome := UploadFileWithProgress(configured, file.value, None, Some(MonthKey(year, referenceMonth)), response, parse);
      sent := Some(fields);
      RunUploadEvents(events);
      ApplyUploadResult(hadPasswordRequest, outcome);
    }

    /** The flags the first upload sets once its guards pass. */
    method BeginUploadRun()
      modifies this
      ensures State() == old(State()).(uploading := true, progress := Num(0), message := Str(StartingUpload),
                                       requiresPassword := false, invalidPassword := false)
    {
      uploading := true;
      progress := Num(0);
      message := Str(StartingUpload);
      requiresPassword := false;
      invalidPassword := false;
    }

    /** The flags the password retry sets before it checks the month. */
    method BeginPasswordRun()
      modifies this
      ensures State() == old(State()).(invalidPassword := false, uploading := true, progress := Num(0),
                                       message := Str(ProcessingWithPassword))
    {
      invalidPassword := false;
      uploading := true;
      progress := Num(0);
      message := Str(ProcessingWithPassword);
    }

    /** `handlePasswordSubmit`. */
    method PasswordSubmit(configured: Option<string>, year: nat, response: Response, parse: string -> Option<Frame>)
      returns (sent: Option<seq<(string, FormValue)>>)
      modifies this
      ensures State() == PasswordSubmitStep(old(State()), year, response, parse)
      ensures sent.Some? <==> old(file).Some? && Trim(old(password)) != "" && ValidMonth(old(referenceMonth))
      ensures sent.Some? ==>
        sent == Some(FormFields(old(file).value, Some(old(password)), Some(MonthKey(year, old(referenceMonth)))))
    {
      sent := None;
      if file.None? || Trim(password) == "" {
        return;
      }
      BeginPasswordRun();
      if !ValidMonth(referenceMonth) {
        toasts := toasts + [Toast(WarningToast, SelectMonthFirst)];
        return;
      }
      var _, fields, events, outcome := UploadFileWithProgress(configured, file.value, Some(password), Some(MonthKey(year, referenceMonth)), response, parse);
      sent := Some(fields);
      RunPasswordEvents(events);
      ApplyPasswordResult(outcome);
    }
  }
}
