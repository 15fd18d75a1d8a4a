/** The emergency call button of the `Home` page: a helpline number is
    stripped to its digits and dialled through a `tel:` link. */
module Home {
  import opened Seqs

  predicate IsDigit(c: char)
  {
    '0' <= c <= '9'
  }

  /** `number.replace(/\D/g, '')`: the digits of the number, in order. */
  function Digits(number: string): (r: string)
    ensures forall i :: 0 <= i < |r| ==> IsDigit(r[i])
    ensures forall i :: 0 <= i < |number| && IsDigit(number[i]) ==> number[i] in r
  {
    Filter(number, IsDigit)
  }

  /** Stripping works piece by piece and keeps one character exactly when it
      is a digit, which fixes both the digits kept and their order. */
  lemma DigitsInOrder(a: string, b: string, c: char)
    ensures Digits(a + b) == Digits(a) + Digits(b)
    ensures Digits([c]) == if IsDigit(c) then [c] else []
  {
    FilterConcat(a, b, IsDigit);
  }

  /** A number made only of digits is left as it is, so stripping twice is
      stripping once. */
  lemma DigitsIdempotent(number: string)
    ensures (forall i :: 0 <= i < |number| ==> IsDigit(number[i])) ==> Digits(number) == number
    ensures Digits(Digits(number)) == Digits(number)
  {
    if forall i :: 0 <= i < |number| ==> IsDigit(number[i]) {
      FilterKeepsAll(number, IsDigit);
    }
    FilterKeepsAll(Digits(number), IsDigit);
  }

  /** `handleCallNow`'s link. */
  function CallTarget(number: string): (href: string)
    ensures |href| >= 4 && href[..4] == "tel:"
    ensures forall i :: 4 <= i < |href| ==> IsDigit(href[i])
  {
    "tel:" + Digits(number)
  }

  predicate AllDigits(s: string)
  {
    forall i :: 0 <= i < |s| ==> IsDigit(s[i])
  }

  /** A dash before a run of digits is dropped and the run kept. */
  lemma DigitsBeforeDash(a: string, b: string)
    requires AllDigits(b)
    ensures Digits(a + "-" + b) == Digits(a) + b
  {
    DigitsInOrder(a + "-", b, '-');
    DigitsInOrder(a, "-", '-');
    DigitsIdempotent(b);
  }

  /** The helpline written "1860-2662-345" is dialled as its eleven digits. */
  lemma FoundationNumber(n: string)
    requires n == "1860-2662-345"
    ensures Digits(n) == "18602662345"
  {
    var a, b, c := FoundationRuns(n);
    DigitsAroundTwoDashes(a, b, c);
  }

  /** The three runs of digits of "1860-2662-345". */
  lemma FoundationRuns(n: string) returns (a: string, b: string, c: string)
    requires n == "1860-2662-345"
    ensures AllDigits(a) && AllDigits(b) && AllDigits(c)
    ensures n == a + "-" + b + "-" + c && a + b + c == "18602662345"
  {
    a, b, c := "1860", "2662", "345";
  }

  /** Three runs of digits separated by dashes are dialled run together. */
  lemma DigitsAroundTwoDashes(a: string, b: string, c: string)
    requires AllDigits(a) && AllDigits(b) && AllDigits(c)
    ensures Digits(a + "-" + b + "-" + c) == a + b + c
  {
    DigitsIdempotent(a);
    DigitsBeforeDash(a, b);
    DigitsBeforeDash(a + "-" + b, c);
  }

  /** The helpline written "044-24640050" is dialled as its eleven digits. */
  lemma SnehaNumber(n: string)
    requires n == "044-24640050"
    ensures Digits(n) == "04424640050"
  {
    var a, b := SnehaRuns(n);
    DigitsIdempotent(a);
    DigitsBeforeDash(a, b);
  }

  /** The two runs of digits of "044-24640050". */
  lemma SnehaRuns(n: string) returns (a: string, b: string)
    requires n == "044-24640050"
    ensures AllDigits(a) && AllDigits(b)
    ensures n == a + "-" + b && a + b == "04424640050"
  {
    a, b := "044", "24640050";
  }

  /** The emergency number, all digits already, is dialled unchanged. */
  lemma EmergencyNumber(n: string)
    requires n == "112"
    ensures Digits(n) == "112"
  {
    assert AllDigits(n);
    DigitsIdempotent(n);
  }
}
