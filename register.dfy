/** The registration page: the checks made before the account is requested,
    the automatic sign-in after it, and how a refusal from the server is
    turned into the one message the page shows. */
module Register {
  import opened Text
  import opened Js

  const ShortPassword := "A senha deve ter no mínimo 6 caracteres"
  const PasswordsDiffer := "As senhas não coincidem"
  const ShortName := "O nome deve ter no mínimo 2 caracteres"
  const CreateFailed := "Erro ao criar conta"
  const SignInLater := "Conta criada com sucesso! Por favor, faça login."
  const MinPasswordLength := 6
  const MinNameLength := 2

  /** The checks of `handleSubmit`, in order; `None` when all pass. */
  function Validate(name: string, password: string, confirmPassword: string): (r: Option<string>)
    ensures |password| < MinPasswordLength ==> r == Some(ShortPassword)
    ensures |password| >= MinPasswordLength && password != confirmPassword ==> r == Some(PasswordsDiffer)
    ensures |password| >= MinPasswordLength && password == confirmPassword && |name| < MinNameLength ==> r == Some(ShortName)
    ensures r.None? <==> |password| >= MinPasswordLength && password == confirmPassword && |name| >= MinNameLength
  {
    if |password| < MinPasswordLength then Some(ShortPassword)
    else if password != confirmPassword then Some(PasswordsDiffer)
    else if |name| < MinNameLength then Some(ShortName)
    else None
  }

  /** The name check is made on the name as typed: two spaces pass it. */
  lemma NameNotTrimmed(password: string)
    requires |password| >= MinPasswordLength
    ensures Validate("  ", password, password).None?
  {
  }

  // ---------------------------------------------------------------------------
  // The server's refusal

  /** An entry of an `errors` array: `e.message` when it is a non-empty text,
      otherwise the entry itself, as `join` writes it. */
  datatype ErrorItem = ErrorItem(message: Option<string>, written: string)

  function ItemText(e: ErrorItem): (t: string)
    ensures t != "" <==> (e.message.Some? && e.message.value != "") || e.written != ""
    ensures t == e.written || Some(t) == e.message
  {
    if e.message.Some? && e.message.value != "" then e.message.value else e.written
  }

  /** A value of an `errors` object: one text, or a list of texts that `flat` spreads. */
  datatype ErrorValue = One(text: string) | Many(texts: seq<string>)

  /** The `errors` field: absent or falsy, an array, an object, or another truthy value. */
  datatype ErrorsField = NoErrors | ErrorList(items: seq<ErrorItem>) | ErrorRecord(values: seq<ErrorValue>) | OtherErrors

  /** `err.response.data`. */
  datatype ResponseData = ResponseData(message: Option<string>, error: Option<string>, errors: ErrorsField)

  /** A rejected register call: the server's response, if any, and the error's own message. */
  datatype Failure = Failure(response: Option<ResponseData>, message: string)

  /** `Object.values(errors).flat()`. */
  function Flatten(values: seq<ErrorValue>): (texts: seq<string>)
    ensures (forall k :: 0 <= k < |values| ==> values[k].One?) ==> |texts| == |values|
    ensures forall t :: t in texts ==> exists k :: 0 <= k < |values| && (values[k] == One(t) || (values[k].Many? && t in values[k].texts))
    decreases |values|
  {
    if values == [] then []
    else
      (match values[0] case One(t) => [t] case Many(ts) => ts) + Flatten(values[1..])
  }

  /** Every text of the object is in the flattened list. */
  lemma {:induction false} FlattenKeepsTexts(values: seq<ErrorValue>, k: nat)
    requires k < |values|
    ensures values[k].One? ==> values[k].text in Flatten(values)
    ensures values[k].Many? ==> forall t :: t in values[k].texts ==> t in Flatten(values)
    decreases |values|
  {
    if k > 0 {
      FlattenKeepsTexts(values[1..], k - 1);
    }
  }

  function ItemTexts(items: seq<ErrorItem>): (texts: seq<string>)
    ensures |texts| == |items|
    ensures forall k :: 0 <= k < |items| ==> texts[k] == ItemText(items[k])
  {
    seq(|items|, k requires 0 <= k < |items| => ItemText(items[k]))
  }

  /** The `catch` block's message: the field errors joined with ", " when
      there are any, otherwise the response's `message` or `error`, otherwise
      the error's own message, otherwise the default. */
  function FailureMessage(f: Failure): (m: string)
    ensures f.response.None? ==> m == (if f.message != "" then f.message else CreateFailed)
    ensures f.response.Some? && f.response.value.errors.ErrorList? ==>
      m == Join(ItemTexts(f.response.value.errors.items), ", ")
    ensures f.response.Some? && f.response.value.errors.ErrorRecord? ==>
      m == Join(Flatten(f.response.value.errors.values), ", ")
  {
    match f.response
    case None => if f.message != "" then f.message else CreateFailed
    case Some(data) =>
      var base :=
        if data.message.Some? && data.message.value != "" then data.message.value
        else if data.error.Some? && data.error.value != "" then data.error.value
        else CreateFailed;
      match data.errors
      case ErrorList(items) => Join(ItemTexts(items), ", ")
      case ErrorRecord(values) => Join(Flatten(values), ", ")
      case _ => base
  }

  /** Without field errors the server's `message` wins over its `error`, and
      the page never shows an empty message. */
  lemma PlainRefusal(data: ResponseData, message: string)
    requires data.errors == NoErrors || data.errors == OtherErrors
    ensures var m := FailureMessage(Failure(Some(data), message));
      && (data.message.Some? && data.message.value != "" ==> m == data.message.value)
      && ((data.message.None? || data.message == Some("")) && data.error.Some? && data.error.value != ""
          ==> m == data.error.value)
      && m != ""
  {
  }

  /** Every field error of an array reaches the message. */
  lemma ListedErrorsShown(data: ResponseData, message: string, k: nat)
    requires data.errors.ErrorList? && k < |data.errors.items|
    ensures Contains(FailureMessage(Failure(Some(data), message)), ItemText(data.errors.items[k]))
  {
    JoinContainsItems(ItemTexts(data.errors.items), ", ", k);
  }

  /** Every text of an errors object reaches the message. */
  lemma RecordErrorsShown(data: ResponseData, message: string, t: string)
    requires data.errors.ErrorRecord?
    requires t in Flatten(data.errors.values)
    ensures Contains(FailureMessage(Failure(Some(data), message)), t)
  {
    var texts := Flatten(data.errors.values);
    var k :| 0 <= k < |texts| && texts[k] == t;
    JoinContainsItems(texts, ", ", k);
  }

  // ---------------------------------------------------------------------------
  // The page's state and its handler

  /** What the register call and the sign-in after it did. */
  datatype Registration = Registered(signedIn: bool) | Refused(failure: Failure)

  /** `RegisterData`. */
  datatype Request = Request(name: string, email: string, password: string)

  datatype Page = Page(
    name: string, email: string, password: string, confirmPassword: string,
    error: string, loading: bool, location: string)

  const HomePath := "/"
  const LoginPath := "/login"

  /** `handleSubmit` on values: the error is cleared, the checks run, and
      only when they pass is the account requested. */
  function SubmitStep(p: Page, outcome: Registration): (q: Page)
    ensures Validate(p.name, p.password, p.confirmPassword).Some? ==>
      q == p.(error := Validate(p.name, p.password, p.confirmPassword).value)
    ensures Validate(p.name, p.password, p.confirmPassword).None? ==> !q.loading
    ensures Validate(p.name, p.password, p.confirmPassword).None? && outcome == Registered(true) ==>
      q == p.(error := "", loading := false, location := HomePath)
    ensures Validate(p.name, p.password, p.confirmPassword).None? && outcome == Registered(false) ==>
      q == p.(error := SignInLater, loading := false, location := LoginPath)
    ensures Validate(p.name, p.password, p.confirmPassword).None? && outcome.Refused? ==>
      q == p.(error := FailureMessage(outcome.failure), loading := false)
    ensures q.name == p.name && q.email == p.email && q.password == p.password
  {
    var cleared := p.(error := "");
    var check := Validate(p.name, p.password, p.confirmPassword);
    if check.Some? then cleared.(error := check.value)
    else
      match outcome
      case Registered(signedIn) =>
        if signedIn then cleared.(location := HomePath, loading := false)
        else cleared.(error := SignInLater, location := LoginPath, loading := false)
      case Refused(f) => cleared.(error := FailureMessage(f), loading := false)
  }

  class RegisterForm {
    var name: string
    var email: string
    var password: string
    var confirmPassword: string
    var error: string
    var loading: bool
    var location: string

    function State(): Page
      reads this
    {
      Page(name, email, password, confirmPassword, error, loading, location)
    }

    /** `handleSubmit`: the request it sends, if the checks pass. The sign-in
        failure's redirect to the login page, made by a timer, is taken as done. */
    method Submit(outcome: Registration) returns (sent: Option<Request>)
      modifies this
      ensures sent.Some? <==> Validate(old(name), old(password), old(confirmPassword)).None?
      ensures sent.Some? ==> sent.value == Request(old(name), old(email), old(password))
      ensures State() == SubmitStep(old(State()), outcome)
    {
      error := "";
      if |password| < MinPasswordLength {
        error := ShortPassword;
        return None;
      }
      if password != confirmPassword {
        error := PasswordsDiffer;
        return None;
      }
      if |name| < MinNameLength {
        error := ShortName;
        return None;
      }
      loading := true;
      sent := Some(Request(name, email, password));
      match outcome {
        case Registered(signedIn) =>
          if signedIn {
            location := HomePath;
          } else {
            error := SignInLater;
            location := LoginPath;
          }
        case Refused(f) =>
          error := FailureMessage(f);
      }
      loading := false;
    }
  }
}
