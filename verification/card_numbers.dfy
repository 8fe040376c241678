/**
 * How the bank finds the account holder of a card: the holder id is read
 * out of the card number as `card_number.split("|")[1].split("-")[0]`
 * (bank/banks.py). `Split` is Python's `str.split` with a one-character
 * separator.
 */
module CardNumbers {

  import opened Options

  /** Python's `s.split(sep)`: the pieces between the separators, in order. */
  function Split(s: string, sep: char): (parts: seq<string>)
    ensures |parts| >= 1
    ensures forall i :: 0 <= i < |parts| ==> sep !in parts[i]
    ensures forall i, c :: 0 <= i < |parts| && c in parts[i] ==> c in s
    decreases |s|
  {
    if s == [] then [""]
    else
      var rest := Split(s[1..], sep);
      assert forall c :: c in s[1..] ==> c in s;
      if s[0] == sep then [""] + rest
      else [[s[0]] + rest[0]] + rest[1..]
  }

  /** The inverse of Split: the pieces glued back together with `sep`. */
  function Join(parts: seq<string>, sep: char): string
    decreases |parts|
  {
    if |parts| <= 1 then (if parts == [] then "" else parts[0])
    else parts[0] + [sep] + Join(parts[1..], sep)
  }

  /** Splitting loses nothing: joining the pieces gives back the string. */
  lemma {:induction false} JoinSplit(s: string, sep: char)
    ensures Join(Split(s, sep), sep) == s
    decreases |s|
  {
    if s != [] {
      var rest := Split(s[1..], sep);
      JoinSplit(s[1..], sep);
      if s[0] == sep {
        assert Split(s, sep) == [""] + rest;
        assert ([""] + rest)[1..] == rest;
      } else {
        var parts := Split(s, sep);
        assert parts == [[s[0]] + rest[0]] + rest[1..];
        if |rest| == 1 {
          assert parts == [[s[0]] + rest[0]];
        } else {
          assert parts[1..] == rest[1..];
          assert Join(rest, sep) == rest[0] + [sep] + Join(rest[1..], sep);
        }
      }
    }
  }

  /** There is more than one piece exactly when the separator occurs. */
  lemma {:induction false} SplitSingle(s: string, sep: char)
    ensures |Split(s, sep)| == 1 <==> sep !in s
    ensures sep !in s ==> Split(s, sep) == [s]
    decreases |s|
  {
    if s != [] {
      SplitSingle(s[1..], sep);
      assert s == [s[0]] + s[1..];
    }
  }

  /** A separator-free prefix followed by the separator is the first piece. */
  lemma {:induction false} SplitAfterPrefix(p: string, sep: char, r: string)
    requires sep !in p
    ensures Split(p + [sep] + r, sep) == [p] + Split(r, sep)
    decreases |p|
  {
    if p == [] {
      assert p + [sep] + r == [sep] + r;
      assert ([sep] + r)[1..] == r;
    } else {
      var s := p + [sep] + r;
      assert s[0] == p[0] && s[1..] == p[1..] + [sep] + r;
      SplitAfterPrefix(p[1..], sep, r);
      assert [p[0]] + p[1..] == p;
    }
  }

  /**
   * The routing key of a card number: the text between the first `|` and
   * the next `|`, cut at the first `-`. None stands for the IndexError
   * raised when there is no `|`.
   */
  function RoutingKey(cardNumber: string): (key: Option<string>)
    ensures key.None? <==> '|' !in cardNumber
    ensures key.Some? ==> '|' !in key.value && '-' !in key.value
  {
    SplitSingle(cardNumber, '|');
    var parts := Split(cardNumber, '|');
    if |parts| < 2 then None else Some(Split(parts[1], '-')[0])
  }

  /**
   * A card number made of a prefix, `|`, the holder id and then `-`, `|`
   * or nothing, routes to that holder id whatever follows.
   */
  lemma RoutingKeyOf(prefix: string, holder: string, cut: char, rest: string)
    requires '|' !in prefix && '|' !in holder && '-' !in holder
    requires cut == '-' || cut == '|'
    ensures RoutingKey(prefix + "|" + holder + [cut] + rest) == Some(holder)
    ensures RoutingKey(prefix + "|" + holder) == Some(holder)
  {
    var tail := holder + [cut] + rest;
    assert prefix + "|" + holder + [cut] + rest == prefix + ['|'] + tail;
    SplitAfterPrefix(prefix, '|', tail);
    SplitAfterPrefix(prefix, '|', holder);
    SplitSingle(holder, '|');
    SplitSingle(holder, '-');
    if cut == '|' {
      SplitAfterPrefix(holder, '|', rest);
      assert Split(tail, '|')[0] == holder;
    } else {
      SplitAfterPrefix(holder, '-', rest);
      SplitFirstPiece(holder, rest);
    }
  }

  /** With `-` first, the `|`-piece starting at `holder-` still begins with `holder-`. */
  lemma {:induction false} SplitFirstPiece(holder: string, rest: string)
    requires '|' !in holder && '-' !in holder
    ensures Split(Split(holder + "-" + rest, '|')[0], '-')[0] == holder
    decreases |holder|
  {
    if holder == [] {
      var s := "-" + rest;
      assert s[0] == '-' && s[1..] == rest;
      var first := Split(s, '|')[0];
      assert first == ['-'] + Split(rest, '|')[0];
      assert first[0] == '-' && first[1..] == Split(rest, '|')[0];
    } else {
      var s := holder + "-" + rest;
      assert s[0] == holder[0] && s[1..] == holder[1..] + "-" + rest;
      SplitFirstPiece(holder[1..], rest);
      var first := Split(s, '|')[0];
      var tailFirst := Split(s[1..], '|')[0];
      assert first == [holder[0]] + tailFirst;
      assert first[0] == holder[0] && first[1..] == tailFirst;
      assert [holder[0]] + holder[1..] == holder;
    }
  }

  /** The card numbers the bank tests use route to holder 101. */
  lemma RoutingExamples()
    ensures RoutingKey("40001|101-checking-1") == Some("101")
    ensures RoutingKey("50001|101-savings-1") == Some("101")
    ensures RoutingKey("40001") == None
  {
    var checking, savings := "40001|101-checking-1", "50001|101-savings-1";
    assert checking == "40001" + "|" + "101" + ['-'] + "checking-1";
    assert savings == "50001" + "|" + "101" + ['-'] + "savings-1";
    RoutingKeyOf("40001", "101", '-', "checking-1");
    RoutingKeyOf("50001", "101", '-', "savings-1");
  }
}
