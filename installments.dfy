/** The installment gap detector of the transactions page: given a transaction
    whose installment label reads "current/total", decide from the loaded
    transaction list whether a later installment of the same series is missing,
    and the guard of the "generate future installments" action. */
module Installments {
  import opened Text
  import opened Js

  datatype TransactionType = INCOME | EXPENSE

  /** A loaded transaction. The date is kept as its year and month; amounts are
      exact decimals. */
  datatype Transaction = Transaction(
    id: string,
    kind: TransactionType,
    amount: real,
    description: Option<string>,
    year: int,
    month: int,
    installment: Option<string>)

  /** The label of a one-off charge. */
  const SingleInstallment := "Única"

  /** Two amounts within this distance count as the same amount. */
  const AmountTolerance: real := 0.01

  /** The regular expression `^(\d+)\/(\d+)$`. */
  ghost predicate IsInstallmentLabel(s: string) {
    exists i :: 0 <= i < |s| && s[i] == '/' && IsDigits(s[..i]) && IsDigits(s[i + 1..])
  }

  /** Matching `^(\d+)\/(\d+)$` and reading both groups with `parseInt`. */
  function ParseInstallment(text: string): (r: Option<(nat, nat)>)
    ensures r.Some? <==> IsInstallmentLabel(text)
    ensures r.Some? ==> exists i :: (0 <= i < |text| && text[i] == '/' && IsDigits(text[..i])
      && IsDigits(text[i + 1..]) && r.value == (ParseDigits(text[..i]), ParseDigits(text[i + 1..])))
  {
    if '/' in text && IsDigits(text[..Find(text, '/')]) && IsDigits(text[Find(text, '/') + 1..]) then
      var i := Find(text, '/');
      Some((ParseDigits(text[..i]), ParseDigits(text[i + 1..])))
    else
      assert !IsInstallmentLabel(text) by {
        if i :| 0 <= i < |text| && text[i] == '/' && IsDigits(text[..i]) && IsDigits(text[i + 1..]) {
          FirstSlash(text, i);
        }
      }
      None
  }

  /** A slash with only digits before it is the first slash. */
  lemma FirstSlash(s: string, i: nat)
    requires i < |s| && s[i] == '/' && AllDigits(s[..i])
    ensures '/' in s && Find(s, '/') == i
  {
    var j := Find(s, '/');
  }

  /** The label `${current}/${total}` the page builds for an installment. */
  function InstallmentLabel(current: nat, total: nat): string {
    NatToString(current) + "/" + NatToString(total)
  }

  /** A label the page builds parses back to its two numbers. */
  lemma InstallmentLabelRoundTrip(current: nat, total: nat)
    ensures ParseInstallment(InstallmentLabel(current, total)) == Some((current, total))
  {
    var a, b := NatToString(current), NatToString(total);
    var s := InstallmentLabel(current, total);
    assert s[..|a|] == a && s[|a| + 1..] == b;
    FirstSlash(s, |a|);
    ParseNatToString(current);
    ParseNatToString(total);
  }

  /** Whether `s` ends with the pattern `\(\d+\/\d+\)` whose opening parenthesis
      is at `open`. */
  predicate HasCounterAt(s: string, open: nat) {
    open + 1 < |s| && s[open] == '(' && s[|s| - 1] == ')'
    && ParseInstallment(s[open + 1..|s| - 1]).Some?
  }

  /** `s.replace(/\s*\(\d+\/\d+\)$/, '')`. The counter can only start at the last
      `(` of `s`; the leftmost match takes the whole run of white space in front
      of it, so what is left is that prefix without its trailing white space. */
  function StripCounter(s: string): (r: string)
    ensures r <= s
  {
    if '(' in s && HasCounterAt(s, FindLast(s, '(')) then TrimEnd(s[..FindLast(s, '(')]) else s
  }

  /** `description?.replace(/\s*\(\d+\/\d+\)$/, '').trim() || ''`: the name of the
      series a transaction belongs to. */
  function BaseDescription(description: Option<string>): (base: string)
    ensures description.None? ==> base == ""
    ensures base == [] || (!IsSpace(base[0]) && !IsSpace(base[|base| - 1]))
  {
    match description
    case None => ""
    case Some(d) => Trim(StripCounter(d))
  }

  /** `${base} (${i}/${total})`: the description the backend gives installment `i`. */
  function FutureDescription(base: string, i: nat, total: nat): string {
    base + " (" + InstallmentLabel(i, total) + ")"
  }

  /** An installment label holds digits and one slash, so no parenthesis. */
  lemma NoParenInLabel(i: nat, total: nat)
    ensures '(' !in InstallmentLabel(i, total)
  {
    var lbl := InstallmentLabel(i, total);
    assert forall k :: 0 <= k < |lbl| ==> lbl[k] == '/' || IsDigit(lbl[k]);
  }

  /** The parenthesis opened after the series name is the last one. */
  lemma LastOpenParen(base: string, lbl: string)
    requires '(' !in lbl
    ensures FindLast(base + " (" + lbl + ")", '(') == |base| + 1
  {
    var d := base + " (" + lbl + ")";
    var open := |base| + 1;
    CounterParts(base, lbl);
    FindLastAt(d, '(', open);
  }

  /** Stripping the counter from an installment's description leaves the series
      name and the blank before the counter, less trailing white space. */
  lemma StripFutureCounter(base: string, lbl: string)
    requires '(' !in lbl && ParseInstallment(lbl).Some?
    ensures StripCounter(base + " (" + lbl + ")") == TrimEnd(base + " ")
  {
    var d := base + " (" + lbl + ")";
    var open := |base| + 1;
    LastOpenParen(base, lbl);
    CounterParts(base, lbl);
    assert HasCounterAt(d, open);
  }

  /** Where the pieces of `${base} (${lbl})` sit. */
  lemma CounterParts(base: string, lbl: string)
    ensures var d := base + " (" + lbl + ")";
      && |d| == |base| + |lbl| + 3
      && d[..|base| + 1] == base + " "
      && d[|base| + 1] == '(' && d[|d| - 1] == ')'
      && d[|base| + 2..|d| - 1] == lbl
      && d[|base| + 2..] == lbl + ")"
  {
  }

  /** The series name of an installment's description is the name it was built from. */
  lemma BaseOfFutureDescription(base: string, i: nat, total: nat)
    requires Trim(base) == base
    ensures BaseDescription(Some(FutureDescription(base, i, total))) == base
  {
    NoParenInLabel(i, total);
    InstallmentLabelRoundTrip(i, total);
    StripFutureCounter(base, InstallmentLabel(i, total));
    TrimEndSpace(base);
  }

  /** Trimming a trimmed string followed by one blank gives it back. */
  lemma TrimEndSpace(base: string)
    requires Trim(base) == base
    ensures Trim(TrimEnd(base + " ")) == base
  {
    assert (base + " ")[..|base + " "| - 1] == base;
    if base != [] {
      assert TrimStart(base) == base;
      assert TrimEnd(base) == base;
    }
  }

  /** The test at line 693: `t.description === futureDescription || t.description?.startsWith(base)`. */
  predicate SameDescription(t: Transaction, base: string, futureDescription: string) {
    t.description == Some(futureDescription)
    || (t.description.Some? && StartsWith(t.description.value, base))
  }

  /** The exact-description disjunct adds nothing: the test is "has a description
      starting with the series name". */
  lemma SameDescriptionIsPrefix(t: Transaction, base: string, i: nat, total: nat)
    ensures SameDescription(t, base, FutureDescription(base, i, total))
        <==> t.description.Some? && StartsWith(t.description.value, base)
  {
  }

  function Abs(x: real): real {
    if x < 0.0 then -x else x
  }

  /** The callback given to `transactions.some` for installment `i` of `total`. */
  predicate IsInstallmentOf(t: Transaction, base: string, amount: real, i: nat, total: nat)
    ensures IsInstallmentOf(t, base, amount, i, total) ==>
      t.installment.Some? && ParseInstallment(t.installment.value) == Some((i, total))
  {
    InstallmentLabelRoundTrip(i, total);
    SameDescription(t, base, FutureDescription(base, i, total))
    && Abs(t.amount - amount) < AmountTolerance
    && t.installment == Some(InstallmentLabel(i, total))
  }

  /** `transactions.some(...)` for installment `i` of `total`. */
  predicate InstallmentPresent(transactions: seq<Transaction>, base: string, amount: real, i: nat, total: nat) {
    exists k :: 0 <= k < |transactions| && IsInstallmentOf(transactions[k], base, amount, i, total)
  }

  /** The loop `for (let i = from; i <= total; i++) if (!exists) return true; return false`. */
  function AnyMissing(transactions: seq<Transaction>, base: string, amount: real, from: nat, total: nat): (r: bool)
    ensures r <==> exists i :: from <= i <= total && !InstallmentPresent(transactions, base, amount, i, total)
    decreases total + 1 - from
  {
    if from > total then false
    else if !InstallmentPresent(transactions, base, amount, from, total) then true
    else AnyMissing(transactions, base, amount, from + 1, total)
  }

  /** `hasMissingInstallments(transaction)` over the loaded list `transactions`. */
  function HasMissingInstallments(t: Transaction, transactions: seq<Transaction>): (r: bool)
    ensures t.installment.None? || t.installment == Some("") || t.installment == Some(SingleInstallment) ==> !r
    ensures t.installment.Some? && !IsInstallmentLabel(t.installment.value) ==> !r
    ensures forall current, total ::
      t.installment.Some? && ParseInstallment(t.installment.value) == Some((current, total)) ==>
        (r <==> current < total && exists i :: (current < i <= total
            && !InstallmentPresent(transactions, BaseDescription(t.description), t.amount, i, total)))
  {
    if t.installment.None? || t.installment.value == "" || t.installment.value == SingleInstallment then
      false
    else
      match ParseInstallment(t.installment.value)
      case None => false
      case Some((current, total)) =>
        if current >= total then false
        else AnyMissing(transactions, BaseDescription(t.description), t.amount, current + 1, total)
  }

  /** What `handleGenerateInstallments` does before any call to the backend. */
  datatype GenerateDecision =
    | NotInstallment  // warning: the transaction has no installments
    | InvalidFormat   // error: the label is not "current/total"
    | AllPosted       // warning: every installment is already posted
    | Offer(missing: nat)  // ask to generate `missing` future installments

  function GenerateInstallments(t: Transaction): (d: GenerateDecision)
    ensures d == NotInstallment <==>
      t.installment.None? || t.installment == Some("") || t.installment == Some(SingleInstallment)
    ensures d == InvalidFormat <==> d != NotInstallment && !IsInstallmentLabel(t.installment.value)
    ensures d.Offer? ==> d.missing > 0
    ensures forall current, total ::
      d != NotInstallment && ParseInstallment(t.installment.value) == Some((current, total)) ==>
        d == if current < total then Offer(total - current) else AllPosted
  {
    if t.installment.None? || t.installment.value == "" || t.installment.value == SingleInstallment then
      NotInstallment
    else
      match ParseInstallment(t.installment.value)
      case None => InvalidFormat
      case Some((current, total)) =>
        if current >= total then AllPosted else Offer(total - current)
  }

  /** The action and the detector share their guards: wherever the action refuses,
      the detector says nothing is missing, whatever the list holds. */
  lemma {:induction false} DetectorImpliesOffer(t: Transaction, transactions: seq<Transaction>)
    ensures HasMissingInstallments(t, transactions) ==> GenerateInstallments(t).Offer?
    ensures !GenerateInstallments(t).Offer? ==> !HasMissingInstallments(t, transactions)
  {
  }

  /** Installment `i` of the series of `t`, as the backend creates it. */
  function Materialize(t: Transaction, i: nat, total: nat): (u: Transaction) {
    t.(description := Some(FutureDescription(BaseDescription(t.description), i, total)),
       installment := Some(InstallmentLabel(i, total)))
  }

  /** Once every later installment of the series has been created, the detector
      no longer offers to generate them. */
  lemma {:induction false} CompleteSeriesHasNoGap(t: Transaction, transactions: seq<Transaction>, current: nat, total: nat)
    requires t.installment.Some? && ParseInstallment(t.installment.value) == Some((current, total))
    requires forall i :: current < i <= total ==> Materialize(t, i, total) in transactions
    ensures !HasMissingInstallments(t, transactions)
  {
    var base := BaseDescription(t.description);
    forall i | current < i <= total
      ensures InstallmentPresent(transactions, base, t.amount, i, total)
    {
      var u := Materialize(t, i, total);
      var k :| 0 <= k < |transactions| && transactions[k] == u;
      assert IsInstallmentOf(u, base, t.amount, i, total);
    }
  }

  /** With nothing else loaded, a label "2/4" has missing installments. */
  lemma AloneHasGap(t: Transaction)
    requires t.installment == Some("2/4")
    ensures HasMissingInstallments(t, [])
  {
    assert ParseInstallment("2/4") == Some((2, 4)) by {
      InstallmentLabelRoundTrip(2, 4);
      assert InstallmentLabel(2, 4) == "2/4";
    }
    assert !InstallmentPresent([], BaseDescription(t.description), t.amount, 3, 4);
  }
}
