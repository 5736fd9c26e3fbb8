/** A repair batch's branch name lists its source pull requests; the name and the list determine each other. */
module BatchNames {
  import opened Prelude

  const PREFIX := "deps/repair-"

  // ----- Numerals -----

  predicate IsDigit(c: char) {
    '0' <= c <= '9'
  }

  function DigitOf(n: nat): (c: char)
    requires n < 10
    ensures IsDigit(c)
  {
    ('0' as int + n) as char
  }

  function DigitValue(c: char): (n: nat)
    requires IsDigit(c)
    ensures n < 10 && DigitOf(n) == c
  {
    c as int - '0' as int
  }

  function Decimal(n: nat): string {
    if n < 10 then [DigitOf(n)] else Decimal(n / 10) + [DigitOf(n % 10)]
  }

  predicate AllDigits(text: string) {
    forall i | 0 <= i < |text| :: IsDigit(text[i])
  }

  function IntOf(text: string): nat
    requires AllDigits(text)
  {
    if text == "" then 0 else 10 * IntOf(text[..|text| - 1]) + DigitValue(text[|text| - 1])
  }

  /** A positive decimal number without leading zeros. */
  predicate Numeral(text: string) {
    text != "" && AllDigits(text) && text[0] != '0'
  }

  lemma {:induction false} DecimalRoundTrip(n: nat)
    ensures AllDigits(Decimal(n)) && IntOf(Decimal(n)) == n
    ensures Decimal(n) != "" && (n > 0 ==> Decimal(n)[0] != '0')
  {
    if n >= 10 {
      DecimalRoundTrip(n / 10);
      assert Decimal(n)[..|Decimal(n)| - 1] == Decimal(n / 10);
    } else {
      assert [DigitOf(n)][..0] == "";
      assert IntOf("") == 0;
    }
  }

  lemma {:induction false} NumeralRoundTrip(text: string)
    requires Numeral(text)
    ensures IntOf(text) > 0 && Decimal(IntOf(text)) == text
  {
    var init, last := text[..|text| - 1], text[|text| - 1];
    if init == "" {
      assert IntOf(init) == 0;
      assert text == [last];
    } else {
      NumeralRoundTrip(init);
      assert text == init + [last];
    }
  }

  // ----- Lists -----

  function Split(text: string): (parts: seq<string>)
    ensures parts != []
  {
    if text == "" then [""]
    else
      var rest := Split(text[1..]);
      if text[0] == '-' then [""] + rest else [[text[0]] + rest[0]] + rest[1..]
  }

  function Join(parts: seq<string>): string
    requires parts != []
  {
    if |parts| == 1 then parts[0] else parts[0] + "-" + Join(parts[1..])
  }

  lemma {:induction false} JoinSplit(text: string)
    ensures Join(Split(text)) == text
  {
    if text != "" {
      JoinSplit(text[1..]);
      var rest := Split(text[1..]);
      if text[0] == '-' {
        assert ([""] + rest)[1..] == rest;
      } else if |rest| > 1 {
        var parts := Split(text);
        assert parts[1..] == rest[1..];
      }
    }
  }

  lemma {:induction false} SplitPlain(text: string)
    requires '-' !in text
    ensures Split(text) == [text]
  {
    if text != "" {
      SplitPlain(text[1..]);
      assert text[0] in text && text == [text[0]] + text[1..];
    }
  }

  lemma {:induction false} SplitFirst(part: string, rest: string)
    requires '-' !in part
    ensures Split(part + "-" + rest) == [part] + Split(rest)
  {
    var text := part + "-" + rest;
    if part == "" {
      assert text[1..] == rest;
    } else {
      SplitFirst(part[1..], rest);
      assert text[1..] == part[1..] + "-" + rest;
      assert part[0] in part && part == [part[0]] + part[1..];
    }
  }

  lemma {:induction false} SplitJoin(parts: seq<string>)
    requires parts != [] && forall i | 0 <= i < |parts| :: '-' !in parts[i]
    ensures Split(Join(parts)) == parts
  {
    if |parts| == 1 {
      SplitPlain(parts[0]);
    } else {
      SplitJoin(parts[1..]);
      SplitFirst(parts[0], Join(parts[1..]));
    }
  }

  // ----- Branch names -----

  predicate Increasing(numbers: seq<nat>) {
    forall i, j | 0 <= i < j < |numbers| :: numbers[i] < numbers[j]
  }

  /** A batch: one or more positive source numbers in strictly increasing order. */
  predicate IsBatch(numbers: seq<nat>) {
    numbers != [] && Increasing(numbers) && forall i | 0 <= i < |numbers| :: numbers[i] > 0
  }

  function Decimals(numbers: seq<nat>): seq<string> {
    seq(|numbers|, i requires 0 <= i < |numbers| => Decimal(numbers[i]))
  }

  function BranchName(numbers: seq<nat>): string
    requires numbers != []
  {
    PREFIX + Join(Decimals(numbers))
  }

  predicate AllNumerals(parts: seq<string>) {
    forall i | 0 <= i < |parts| :: Numeral(parts[i])
  }

  function Ints(parts: seq<string>): seq<nat>
    requires AllNumerals(parts)
  {
    seq(|parts|, i requires 0 <= i < |parts| => IntOf(parts[i]))
  }

  /** The sources a branch name lists; none when the name is malformed, unsorted or repeats a number. */
  function BranchSources(branch: string): Option<seq<nat>> {
    if !(PREFIX <= branch) || !AllNumerals(Split(branch[|PREFIX|..])) then None
    else
      var numbers := Ints(Split(branch[|PREFIX|..]));
      if Increasing(numbers) then Some(numbers) else None
  }

  lemma DecimalIsNumeral(n: nat)
    requires n > 0
    ensures Numeral(Decimal(n)) && IntOf(Decimal(n)) == n && '-' !in Decimal(n)
  {
    DecimalRoundTrip(n);
    assert forall i | 0 <= i < |Decimal(n)| :: Decimal(n)[i] != '-';
  }

  /** Every batch is read back from its branch name. */
  lemma SourcesOfName(numbers: seq<nat>)
    requires IsBatch(numbers)
    ensures BranchSources(BranchName(numbers)) == Some(numbers)
  {
    var parts := Decimals(numbers);
    forall i | 0 <= i < |parts| ensures Numeral(parts[i]) && IntOf(parts[i]) == numbers[i] && '-' !in parts[i] {
      DecimalIsNumeral(numbers[i]);
    }
    SplitJoin(parts);
    assert BranchName(numbers)[|PREFIX|..] == Join(parts);
    assert Ints(parts) == numbers;
  }

  /** Every accepted branch name lists a batch and is that batch's name. */
  lemma NameOfSources(branch: string)
    requires BranchSources(branch).Some?
    ensures IsBatch(BranchSources(branch).value)
    ensures BranchName(BranchSources(branch).value) == branch
  {
    var parts := Split(branch[|PREFIX|..]);
    var numbers := Ints(parts);
    forall i | 0 <= i < |parts| ensures numbers[i] > 0 && Decimal(numbers[i]) == parts[i] {
      NumeralRoundTrip(parts[i]);
    }
    assert Decimals(numbers) == parts;
    JoinSplit(branch[|PREFIX|..]);
    assert PREFIX + branch[|PREFIX|..] == branch;
  }
}
