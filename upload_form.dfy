/** The small rules of the transactions page around the upload form and the
    monthly list: which files the form accepts, the icon it shows for a file,
    the "YYYY-MM" reference month sent with an upload, the expanded-month set,
    the signed month total and the list of years. */
module UploadForm {
  import opened Text
  import opened Js
  import opened Installments
  import opened UploadStream

  // ---------------------------------------------------------------------------
  // File validation

  /** The MIME types the form accepts. */
  const ValidTypes: seq<string> := [
    "image/jpeg", "image/png", "image/jpg",
    "application/pdf",
    "application/vnd.openxmlformats-officedocument.spreadsheetml.sheet",
    "application/vnd.ms-excel",
    "text/csv"]

  /** The file-name extensions the form accepts. */
  const ValidExtensions: seq<string> := ["pdf", "jpg", "jpeg", "png", "xlsx", "xls", "csv"]

  /** 10 MB. */
  const MaxFileSize: nat := 10 * 1024 * 1024

  const BadTypeMessage := "Por favor, selecione imagens (JPG, PNG), PDFs ou planilhas (Excel, CSV)"
  const TooLargeMessage := "O arquivo deve ter no máximo 10MB"

  /** `file.name.split('.').pop().toLowerCase()`: what follows the last dot,
      lower-cased; a name without a dot is its own extension. */
  function Extension(name: string): (ext: string)
    ensures '.' !in name ==> ext == ToLower(name)
    ensures |ext| <= |name|
    ensures '.' !in ext && '.' !in name[|name| - |ext|..]
    ensures ext == ToLower(name[|name| - |ext|..])
    ensures |ext| == |name| || name[|name| - |ext| - 1] == '.'
  {
    var segment := LastSegment(name, '.');
    ToLowerAbsent(segment, '.');
    ToLower(segment)
  }

  datatype FileCheck = Accepted | BadType | TooLarge

  /** The checks of `handleFileSelect`, in their order: the type first, then the size. */
  function CheckFile(file: File): (c: FileCheck)
    ensures c == Accepted <==>
      (file.mimeType in ValidTypes || Extension(file.name) in ValidExtensions) && file.size <= MaxFileSize
    ensures c == BadType <==> file.mimeType !in ValidTypes && Extension(file.name) !in ValidExtensions
    ensures c == TooLarge ==> file.size > MaxFileSize
  {
    if file.mimeType !in ValidTypes && Extension(file.name) !in ValidExtensions then BadType
    else if file.size > MaxFileSize then TooLarge
    else Accepted
  }

  /** The message shown for a refused file. */
  function RefusalMessage(c: FileCheck): (m: string)
    requires c != Accepted
    ensures m == BadTypeMessage || m == TooLargeMessage
  {
    if c == BadType then BadTypeMessage else TooLargeMessage
  }

  // ---------------------------------------------------------------------------
  // File icon

  datatype FileIcon = PdfIcon | ImageIcon | SheetIcon | GenericIcon

  /** `getFileIcon`. */
  function IconOf(name: string): (icon: FileIcon)
    ensures icon == PdfIcon <==> Extension(name) == "pdf"
    ensures icon == ImageIcon <==> Extension(name) in ["jpg", "jpeg", "png"]
    ensures icon == SheetIcon <==> Extension(name) in ["xlsx", "xls", "csv"]
  {
    var ext := Extension(name);
    if ext == "pdf" then PdfIcon
    else if ext in ["jpg", "jpeg", "png"] then ImageIcon
    else if ext in ["xlsx", "xls", "csv"] then SheetIcon
    else GenericIcon
  }

  /** The icon is a specific one exactly for the extensions the form accepts. */
  lemma IconMatchesAllowList(name: string)
    ensures IconOf(name) != GenericIcon <==> Extension(name) in ValidExtensions
  {
    var ext := Extension(name);
    assert ext in ValidExtensions <==> ext == "pdf" || ext in ["jpg", "jpeg", "png"] || ext in ["xlsx", "xls", "csv"];
  }

  // ---------------------------------------------------------------------------
  // The reference month

  /** `${year}-${String(month).padStart(2, '0')}`. */
  function MonthKey(year: nat, month: nat): (key: string)
    ensures |key| >= |NatToString(year)| + 3
  {
    NatToString(year) + "-" + PadStart2(NatToString(month))
  }

  /** A key is the year's digits, the dash, then the padded month. */
  lemma MonthKeyParts(year: nat, month: nat)
    ensures var key, y := MonthKey(year, month), NatToString(year);
      && '-' in key && Find(key, '-') == |y|
      && key[..|y|] == y && key[|y| + 1..] == PadStart2(NatToString(month))
  {
    var key, y := MonthKey(year, month), NatToString(year);
    JoinParts(y, "-", PadStart2(NatToString(month)));
    FindAt(key, '-', |y|);
  }

  /** Reading a "YYYY-MM" key back into its year and month. */
  function ParseMonthKey(key: string): (r: Option<(nat, nat)>)
    ensures r.Some? ==> '-' in key
  {
    if '-' in key && AllDigits(key[..Find(key, '-')]) && AllDigits(key[Find(key, '-') + 1..]) then
      var i := Find(key, '-');
      Some((ParseDigits(key[..i]), ParseDigits(key[i + 1..])))
    else
      None
  }

  /** Leading zeros do not change a number. */
  lemma {:induction false} ParseLeadingZero(s: string)
    requires AllDigits(s)
    ensures AllDigits("0" + s) && ParseDigits("0" + s) == ParseDigits(s)
    decreases |s|
  {
    if s != [] {
      var t := "0" + s;
      assert t[..|t| - 1] == "0" + s[..|s| - 1];
      ParseLeadingZero(s[..|s| - 1]);
    }
  }

  /** The key the page sends parses back to the year and month it was built from. */
  lemma MonthKeyRoundTrip(year: nat, month: nat)
    requires 1 <= month <= 12
    ensures ParseMonthKey(MonthKey(year, month)) == Some((year, month))
  {
    var y, m := NatToString(year), NatToString(month);
    MonthKeyParts(year, month);
    ParseNatToString(year);
    ParseNatToString(month);
    if |m| == 1 {
      ParseLeadingZero(m);
    }
  }

  // ---------------------------------------------------------------------------
  // The monthly list

  /** `toggleMonth`: a copy of the set with `key` added when it was missing
      and removed when it was present. */
  function ToggleMonth(expanded: set<string>, key: string): (r: set<string>)
    ensures key in r <==> key !in expanded
    ensures forall k :: k != key ==> (k in r <==> k in expanded)
  {
    if key in expanded then expanded - {key} else expanded + {key}
  }

  /** Toggling the same month twice restores the set. */
  lemma ToggleTwice(expanded: set<string>, key: string)
    ensures ToggleMonth(ToggleMonth(expanded, key), key) == expanded
  {
    var once := ToggleMonth(expanded, key);
    var twice := ToggleMonth(once, key);
    assert forall k :: k in twice <==> k in expanded;
  }

  /** `calculateMonthTotal`: incomes count positive, expenses negative. */
  function MonthTotal(txs: seq<Transaction>): (total: real)
    ensures (forall k :: 0 <= k < |txs| ==> txs[k].kind == INCOME && txs[k].amount >= 0.0) ==> total >= 0.0
    ensures (forall k :: 0 <= k < |txs| ==> txs[k].kind == EXPENSE && txs[k].amount >= 0.0) ==> total <= 0.0
    decreases |txs|
  {
    if txs == [] then 0.0
    else
      var tx := txs[|txs| - 1];
      MonthTotal(txs[..|txs| - 1]) + (if tx.kind == INCOME then tx.amount else -tx.amount)
  }

  /** The sum of the amounts of one kind. */
  function KindSum(txs: seq<Transaction>, kind: TransactionType): real
    decreases |txs|
  {
    if txs == [] then 0.0
    else KindSum(txs[1..], kind) + (if txs[0].kind == kind then txs[0].amount else 0.0)
  }

  /** The total of a list split in two is the sum of the totals of the parts. */
  lemma {:induction false} MonthTotalConcat(a: seq<Transaction>, b: seq<Transaction>)
    ensures MonthTotal(a + b) == MonthTotal(a) + MonthTotal(b)
    decreases |b|
  {
    if b == [] {
      assert a + b == a;
    } else {
      var n := |b| - 1;
      assert (a + b)[..|a + b| - 1] == a + b[..n];
      MonthTotalConcat(a, b[..n]);
    }
  }

  /** The month total is the income minus the expenses. */
  lemma {:induction false} MonthTotalIsIncomeMinusExpense(txs: seq<Transaction>)
    ensures MonthTotal(txs) == KindSum(txs, INCOME) - KindSum(txs, EXPENSE)
    decreases |txs|
  {
    if txs != [] {
      MonthTotalConcat([txs[0]], txs[1..]);
      assert [txs[0]] + txs[1..] == txs;
      assert [txs[0]][..0] == [];
      MonthTotalIsIncomeMinusExpense(txs[1..]);
    }
  }

  predicate StrictlyDescending(s: seq<int>) {
    forall i, j :: 0 <= i < j < |s| ==> s[i] > s[j]
  }

  /** Puts `y` into its place in a strictly descending list, once. */
  function InsertYear(years: seq<int>, y: int): (r: seq<int>)
    requires StrictlyDescending(years)
    ensures StrictlyDescending(r)
    ensures forall x :: x in r <==> x in years || x == y
    decreases |years|
  {
    if years == [] then [y]
    else if y > years[0] then [y] + years
    else if y == years[0] then years
    else
      var rest := InsertYear(years[1..], y);
      assert forall k :: 0 <= k < |rest| ==> rest[k] in years[1..] || rest[k] == y;
      [years[0]] + rest
  }

  /** `availableYears`: the distinct years of the transactions, newest first. */
  function AvailableYears(txs: seq<Transaction>): (years: seq<int>)
    ensures StrictlyDescending(years)
    ensures forall y :: y in years <==> exists t :: t in txs && t.year == y
    decreases |txs|
  {
    if txs == [] then []
    else
      var rest := AvailableYears(txs[..|txs| - 1]);
      var r := InsertYear(rest, txs[|txs| - 1].year);
      assert forall t :: t in txs <==> t in txs[..|txs| - 1] || t == txs[|txs| - 1] by {
        assert txs == txs[..|txs| - 1] + [txs[|txs| - 1]];
      }
      r
  }
}
