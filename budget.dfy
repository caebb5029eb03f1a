// The budget-bucket parser inside createVisitorAndVisit (src/lib/actions.ts).
// A token `<N` means up to N thousand, `>N` means from N thousand with no
// upper bound, and `A-B` means A to B thousand; anything else, or no budget,
// gives the default of 0 with no upper bound.

module BudgetParsing {
  import opened Wrappers
  import opened Text
  import opened Types

  /** `budgetMin` and `budgetMax`; a None max is null (no upper bound). */
  datatype Budget = Budget(min: Amount, max: Option<Amount>)

  const DefaultBudget := Budget(Dollars(0), None)

  /** `parseInt(digits, 10)` of a string that holds only digits. */
  function ParseDigits(digits: string): Amount
    requires AllDigits(digits)
  {
    if digits == [] then NaN else Dollars(DecimalValue(digits))
  }

  /** `parseInt(part.replace(/\D/g, ''), 10) * 1000` */
  function Thousands(part: string): Amount {
    match ParseDigits(DigitsOf(part))
    case NaN => NaN
    case Dollars(n) => Dollars(n * 1000)
  }

  /** The budget a (possibly absent) bucket token denotes. The `<` and `>`
      prefixes are checked before `-`; a range keeps its first two parts. */
  function BudgetOf(budget: Option<string>): Budget {
    if budget.None? || budget.value == "" then DefaultBudget
    else
      var token := budget.value;
      if StartsWith(token, "<") then Budget(Dollars(0), Some(Thousands(token)))
      else if StartsWith(token, ">") then Budget(Thousands(token), None)
      else if '-' in token then
        var parts := Split(token, '-');
        Budget(Thousands(parts[0]), Some(Thousands(parts[1])))
      else DefaultBudget
  }

  /** The parser as the source runs it: two variables that start at the
      default and that the matching branch reassigns. */
  method ParseBudget(budget: Option<string>) returns (budgetMin: Amount, budgetMax: Option<Amount>)
    ensures Budget(budgetMin, budgetMax) == BudgetOf(budget)
  {
    budgetMin := Dollars(0);
    budgetMax := None;
    if budget.Some? && budget.value != "" {
      var token := budget.value;
      if StartsWith(token, "<") {
        budgetMin := Dollars(0);
        budgetMax := Some(Thousands(token));
      } else if StartsWith(token, ">") {
        budgetMin := Thousands(token);
        budgetMax := None;
      } else if '-' in token {
        var parts := Split(token, '-');
        budgetMin := Thousands(parts[0]);
        budgetMax := Some(Thousands(parts[1]));
      }
    }
  }

  /** A number written in decimal reads back as that many thousands. */
  lemma ThousandsOfShowNat(n: nat)
    ensures Thousands(ShowNat(n)) == Dollars(n * 1000)
  {
    DecimalValueShowNat(n);
  }

  /** A prefix that holds no digit does not change the thousands read. */
  lemma ThousandsAfterSymbol(symbol: string, n: nat)
    requires |symbol| == 1 && !IsDigit(symbol[0])
    ensures Thousands(symbol + ShowNat(n)) == Dollars(n * 1000)
  {
    DigitsOfAppend(symbol, ShowNat(n));
    assert DigitsOf(symbol) == [] + DigitsOf(symbol[1..]);
    assert symbol[1..] == [];
    assert DigitsOf(symbol + ShowNat(n)) == ShowNat(n);
    ThousandsOfShowNat(n);
  }

  /** `<N` means from 0 up to N thousand. */
  lemma BelowToken(n: nat)
    ensures BudgetOf(Some("<" + ShowNat(n))) == Budget(Dollars(0), Some(Dollars(n * 1000)))
  {
    ThousandsAfterSymbol("<", n);
    assert StartsWith("<" + ShowNat(n), "<");
  }

  /** `>N` means from N thousand with no upper bound. */
  lemma AboveToken(n: nat)
    ensures BudgetOf(Some(">" + ShowNat(n))) == Budget(Dollars(n * 1000), None)
  {
    ThousandsAfterSymbol(">", n);
    var token := ">" + ShowNat(n);
    assert token[0] == '>';
    assert StartsWith(token, ">");
  }

  /** `A-B` means from A thousand to B thousand. */
  lemma RangeToken(a: nat, b: nat)
    ensures BudgetOf(Some(ShowNat(a) + "-" + ShowNat(b))) == Budget(Dollars(a * 1000), Some(Dollars(b * 1000)))
  {
    var x, y := ShowNat(a), ShowNat(b);
    var token := x + "-" + y;
    assert token[0] == x[0] && IsDigit(x[0]);
    assert !StartsWith(token, "<") && !StartsWith(token, ">");
    assert token[|x|] == '-';
    assert '-' !in x && '-' !in y by {
      assert forall i :: 0 <= i < |x| ==> IsDigit(x[i]);
      assert forall i :: 0 <= i < |y| ==> IsDigit(y[i]);
    }
    SplitAfterField(x, '-', y);
    SplitWithoutSeparator(y, '-');
    assert Split(token, '-') == [x, y];
    ThousandsOfShowNat(a);
    ThousandsOfShowNat(b);
  }

  /** The parser does not order a range: a token whose first number is the
      larger gives an upper bound below the lower bound. */
  lemma RangeNotOrdered(a: nat, b: nat)
    requires b < a
    ensures var r := BudgetOf(Some(ShowNat(a) + "-" + ShowNat(b)));
      r.min.Dollars? && r.max.Some? && r.max.value.Dollars? && r.max.value.n < r.min.n
  {
    RangeToken(a, b);
  }

  /** A range keeps only its first two parts: `A-B-rest` reads as `A-B`,
      whatever follows the second dash. */
  lemma RangeExtraParts(a: nat, b: nat, rest: string)
    ensures BudgetOf(Some(ShowNat(a) + "-" + ShowNat(b) + "-" + rest)) == Budget(Dollars(a * 1000), Some(Dollars(b * 1000)))
  {
    var x, y := ShowNat(a), ShowNat(b);
    var tail := y + "-" + rest;
    var token := x + "-" + y + "-" + rest;
    assert token == x + "-" + tail;
    assert token[0] == x[0] && IsDigit(x[0]);
    assert !StartsWith(token, "<") && !StartsWith(token, ">");
    assert token[|x|] == '-';
    assert '-' !in x && '-' !in y by {
      assert forall i :: 0 <= i < |x| ==> IsDigit(x[i]);
      assert forall i :: 0 <= i < |y| ==> IsDigit(y[i]);
    }
    SplitAfterField(x, '-', tail);
    SplitAfterField(y, '-', rest);
    assert Split(token, '-')[..2] == [x, y];
    ThousandsOfShowNat(a);
    ThousandsOfShowNat(b);
  }

  /** The `<` prefix is checked before the dash: in `<N-M` the dash is only
      one more non-digit, so the upper bound reads the digits of N and M
      run together and no range is formed. */
  lemma BelowTokenWithDash(n: nat, m: nat)
    ensures BudgetOf(Some("<" + ShowNat(n) + "-" + ShowNat(m))) == Budget(Dollars(0), Some(Thousands(ShowNat(n) + ShowNat(m))))
  {
    var token := "<" + ShowNat(n) + "-" + ShowNat(m);
    assert token[0] == '<';
    DigitsAroundDash(ShowNat(n), ShowNat(m));
  }

  /** The non-digits `<` and `-` drop out of `<x-y`. */
  lemma DigitsAroundDash(x: string, y: string)
    requires AllDigits(x) && AllDigits(y)
    ensures DigitsOf("<" + x + "-" + y) == x + y
  {
    var dashY := ['-'] + y;
    assert "<" + x + "-" + y == ['<'] + (x + dashY);
    DigitsAfterNonDigit('<', x + dashY);
    DigitsOfAppend(x, dashY);
    DigitsAfterNonDigit('-', y);
  }

  /** A leading non-digit contributes nothing. */
  lemma DigitsAfterNonDigit(c: char, s: string)
    requires !IsDigit(c)
    ensures DigitsOf([c] + s) == DigitsOf(s)
  {
    assert ([c] + s)[1..] == s;
  }

  /** The case `<5-6`: an upper bound of 56 thousand. */
  lemma BelowFiveDashSix(token: string)
    requires token == "<5-6"
    ensures BudgetOf(Some(token)) == Budget(Dollars(0), Some(Dollars(56000)))
  {
    assert ShowNat(5) == "5" && ShowNat(6) == "6";
    assert token == "<" + ShowNat(5) + "-" + ShowNat(6);
    BelowTokenWithDash(5, 6);
    assert ShowNat(5) + ShowNat(6) == "56";
    assert DecimalValue("56") == 56;
  }

  /** No token, an empty one, or one of none of the three forms gives the default. */
  lemma UnrecognisedToken(budget: Option<string>)
    requires budget.Some? ==> !StartsWith(budget.value, "<") && !StartsWith(budget.value, ">") && '-' !in budget.value
    ensures BudgetOf(budget) == DefaultBudget
  {
  }

  lemma ShowFormNumbers()
    ensures ShowNat(500) == "500" && ShowNat(650) == "650" && ShowNat(800) == "800"
  {
    assert DigitChar(0) == '0' && DigitChar(5) == '5' && DigitChar(6) == '6' && DigitChar(8) == '8';
    assert ShowNat(50) == ShowNat(5) + [DigitChar(0)];
    assert ShowNat(500) == ShowNat(50) + [DigitChar(0)];
    assert ShowNat(65) == ShowNat(6) + [DigitChar(5)];
    assert ShowNat(650) == ShowNat(65) + [DigitChar(0)];
    assert ShowNat(80) == ShowNat(8) + [DigitChar(0)];
    assert ShowNat(800) == ShowNat(80) + [DigitChar(0)];
  }

  /** The four buckets the intake form offers. In each a present upper
      bound is at least the lower bound. */
  lemma BucketBelow500(token: string)
    requires token == "<500"
    ensures BudgetOf(Some(token)) == Budget(Dollars(0), Some(Dollars(500000)))
  {
    ShowFormNumbers();
    BelowToken(500);
  }

  lemma Bucket500To650(token: string)
    requires token == "500-650"
    ensures BudgetOf(Some(token)) == Budget(Dollars(500000), Some(Dollars(650000)))
  {
    ShowFormNumbers();
    RangeToken(500, 650);
    assert token == ShowNat(500) + "-" + ShowNat(650);
  }

  lemma Bucket650To800(token: string)
    requires token == "650-800"
    ensures BudgetOf(Some(token)) == Budget(Dollars(650000), Some(Dollars(800000)))
  {
    ShowFormNumbers();
    RangeToken(650, 800);
    assert token == ShowNat(650) + "-" + ShowNat(800);
  }

  lemma BucketAbove800(token: string)
    requires token == ">800"
    ensures BudgetOf(Some(token)) == Budget(Dollars(800000), None)
  {
    ShowFormNumbers();
    AboveToken(800);
  }
}
