/**
 * The text a registry reports for its number of accounts per kind
 * (the `accounts` property of Accounts in bank/accounts.py), and a reader
 * for that text showing the three counts can be read back from it.
 */
module Summary {

  import opened Options

  predicate IsDigit(c: char) { '0' <= c <= '9' }

  predicate AllDigits(s: string) { forall i :: 0 <= i < |s| ==> IsDigit(s[i]) }

  function DigitChar(d: nat): (c: char)
    requires d < 10
    ensures IsDigit(c) && c as int - '0' as int == d
  {
    ('0' as int + d) as char
  }

  /** Python's decimal rendering of a non-negative int, as in `f"{n}"`. */
  function NatToString(n: nat): (s: string)
    ensures |s| >= 1 && AllDigits(s)
    decreases n
  {
    if n < 10 then [DigitChar(n)] else NatToString(n / 10) + [DigitChar(n % 10)]
  }

  /** The number a string of decimal digits denotes. */
  function ValueOf(s: string): nat
    requires AllDigits(s)
    decreases |s|
  {
    if s == [] then 0 else 10 * ValueOf(s[..|s| - 1]) + (s[|s| - 1] as int - '0' as int)
  }

  lemma {:induction false} ValueOfNatToString(n: nat)
    ensures ValueOf(NatToString(n)) == n
    decreases n
  {
    if n >= 10 {
      var s := NatToString(n);
      assert s[..|s| - 1] == NatToString(n / 10);
      ValueOfNatToString(n / 10);
    }
  }

  /** The length of the longest prefix of `s` made of digits. */
  function DigitRun(s: string): (k: nat)
    ensures k <= |s| && AllDigits(s[..k]) && (k == |s| || !IsDigit(s[k]))
    decreases |s|
  {
    if s == [] || !IsDigit(s[0]) then 0
    else
      var k := DigitRun(s[1..]);
      assert s[..k + 1] == [s[0]] + s[1..][..k];
      k + 1
  }

  /** Reads a decimal number off the front of `s`; None when `s` does not start with a digit. */
  function ReadNat(s: string): Option<(nat, string)>
  {
    var k := DigitRun(s);
    if k == 0 then None else Some((ValueOf(s[..k]), s[k..]))
  }

  lemma {:induction false} DigitRunOf(d: string, rest: string)
    requires AllDigits(d)
    requires rest == [] || !IsDigit(rest[0])
    ensures DigitRun(d + rest) == |d|
    decreases |d|
  {
    if d != [] {
      assert (d + rest)[1..] == d[1..] + rest;
      DigitRunOf(d[1..], rest);
    } else {
      assert d + rest == rest;
    }
  }

  lemma ReadNatOf(n: nat, rest: string)
    requires rest == [] || !IsDigit(rest[0])
    ensures ReadNat(NatToString(n) + rest) == Some((n, rest))
  {
    var d := NatToString(n);
    DigitRunOf(d, rest);
    assert (d + rest)[..|d|] == d && (d + rest)[|d|..] == rest;
    ValueOfNatToString(n);
  }

  /** Strips the literal `lit` off the front of `s`. */
  function Expect(s: string, lit: string): Option<string>
  {
    if lit <= s then Some(s[|lit|..]) else None
  }

  const CHECKING_LABEL: string := "Accounts: Checking: "
  const SAVINGS_LABEL: string := ", Savings: "
  const CREDIT_LABEL: string := ", Credit: "

  /** "Accounts: Checking: {c}, Savings: {s}, Credit: {k}". */
  function SummaryText(checking: nat, savings: nat, credit: nat): string
  {
    CHECKING_LABEL + NatToString(checking) + SAVINGS_LABEL + NatToString(savings)
      + CREDIT_LABEL + NatToString(credit)
  }

  /** Reads the three counts back from a summary line. */
  function ParseSummary(s: string): Option<(nat, nat, nat)>
  {
    match Expect(s, CHECKING_LABEL)
    case None => None
    case Some(s1) =>
      match ReadNat(s1)
      case None => None
      case Some((c, s2)) =>
        match Expect(s2, SAVINGS_LABEL)
        case None => None
        case Some(s3) =>
          match ReadNat(s3)
          case None => None
          case Some((v, s4)) =>
            match Expect(s4, CREDIT_LABEL)
            case None => None
            case Some(s5) =>
              match ReadNat(s5)
              case None => None
              case Some((k, s6)) => if s6 == [] then Some((c, v, k)) else None
  }

  lemma ExpectOf(lit: string, rest: string)
    ensures Expect(lit + rest, lit) == Some(rest)
  {
    assert lit <= lit + rest;
    assert (lit + rest)[|lit|..] == rest;
  }

  /** The summary line determines the three counts: reading it back gives them. */
  lemma ParseSummaryText(checking: nat, savings: nat, credit: nat)
    ensures ParseSummary(SummaryText(checking, savings, credit)) == Some((checking, savings, credit))
  {
    var c, v, k := NatToString(checking), NatToString(savings), NatToString(credit);
    var t5 := CREDIT_LABEL + k;
    var t4 := v + t5;
    var t3 := SAVINGS_LABEL + t4;
    var t2 := c + t3;
    assert SummaryText(checking, savings, credit) == CHECKING_LABEL + t2;
    ExpectOf(CHECKING_LABEL, t2);
    ReadNatOf(checking, t3);
    ExpectOf(SAVINGS_LABEL, t4);
    ReadNatOf(savings, t5);
    ExpectOf(CREDIT_LABEL, k);
    ReadNatOf(credit, []);
    assert k + [] == k;
  }

  /** The line the registry tests expect for one checking and one savings account. */
  lemma SummaryExample()
    ensures SummaryText(1, 1, 0) == "Accounts: Checking: 1, Savings: 1, Credit: 0"
  {
  }
}
