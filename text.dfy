/**
 * The string helpers the application relies on: Python's `str.split` with a
 * one-character separator (the plant list typed at signup), `str.join`
 * (the plant list shown on the home screen, and the inverse of the split),
 * and `str` of a non-negative integer (the key under which the predicted
 * class index is looked up in the label catalog).
 */
module Text {

  /** Number of occurrences of `c` in `s`. */
  function Count(s: string, c: char): nat
  {
    if s == [] then 0 else (if s[0] == c then 1 else 0) + Count(s[1..], c)
  }

  /**
   * `s.split(sep)` for a single-character separator: the maximal pieces of
   * `s` between separators, empty pieces included, so that the empty string
   * splits into one empty piece.
   */
  function Split(s: string, sep: char): (r: seq<string>)
    ensures |r| == Count(s, sep) + 1
    ensures forall i :: 0 <= i < |r| ==> sep !in r[i]
  {
    if s == [] then [""] else SplitStep(s[0], sep, Split(s[1..], sep))
  }

  /** The pieces of `[c] + t`, given the pieces `rest` of `t`. */
  function SplitStep(c: char, sep: char, rest: seq<string>): (r: seq<string>)
    requires rest != []
    ensures |r| == |rest| + (if c == sep then 1 else 0)
    ensures (forall i :: 0 <= i < |rest| ==> sep !in rest[i]) ==>
              forall i :: 0 <= i < |r| ==> sep !in r[i]
  {
    if c == sep then [""] + rest else [[c] + rest[0]] + rest[1..]
  }

  /** The summed length of the pieces. */
  function TotalLength(parts: seq<string>): nat
  {
    if parts == [] then 0 else |parts[0]| + TotalLength(parts[1..])
  }

  /**
   * `sep.join(parts)`: the pieces in order with one separator between each
   * neighbouring pair, so nothing for no pieces.
   */
  function Join(parts: seq<string>, sep: string): (r: string)
    ensures parts == [] ==> r == ""
    ensures parts != [] ==> |r| == TotalLength(parts) + (|parts| - 1) * |sep|
    ensures parts != [] ==> r[..|parts[0]|] == parts[0]
  {
    if parts == [] then ""
    else if |parts| == 1 then parts[0]
    else parts[0] + sep + Join(parts[1..], sep)
  }

  /** Joining a piece in front of a non-empty list puts the separator between them. */
  lemma {:induction false} JoinCons(w: string, parts: seq<string>, sep: string)
    requires parts != []
    ensures Join([w] + parts, sep) == w + sep + Join(parts, sep)
  {
  }

  /** Joining the pieces of a split with the separator gives back the input. */
  lemma {:induction false} JoinSplit(s: string, sep: char)
    ensures Join(Split(s, sep), [sep]) == s
  {
    if s != [] {
      var rest := Split(s[1..], sep);
      JoinSplit(s[1..], sep);
      if s[0] == sep {
        JoinCons("", rest, [sep]);
      } else {
        var head := [s[0]] + rest[0];
        if |rest| == 1 {
          assert Split(s, sep) == [head];
        } else {
          JoinCons(head, rest[1..], [sep]);
          JoinCons(rest[0], rest[1..], [sep]);
          assert [rest[0]] + rest[1..] == rest;
        }
      }
    }
  }

  /** Splitting a separator-free word followed by `t` glues the word to the first piece of `t`. */
  lemma {:induction false} SplitGlue(w: string, t: string, sep: char)
    requires sep !in w
    ensures Split(w + t, sep) == [w + Split(t, sep)[0]] + Split(t, sep)[1..]
  {
    if w != [] {
      SplitGlue(w[1..], t, sep);
      assert (w + t)[1..] == w[1..] + t;
      assert [w[0]] + (w[1..] + Split(t, sep)[0]) == w + Split(t, sep)[0];
    } else {
      assert w + t == t;
      assert w + Split(t, sep)[0] == Split(t, sep)[0];
      assert [Split(t, sep)[0]] + Split(t, sep)[1..] == Split(t, sep);
    }
  }

  /**
   * Splitting the join of a non-empty list of separator-free pieces gives
   * back the pieces.
   */
  lemma {:induction false} SplitJoin(parts: seq<string>, sep: char)
    requires parts != []
    requires forall i :: 0 <= i < |parts| ==> sep !in parts[i]
    ensures Split(Join(parts, [sep]), sep) == parts
  {
    if |parts| == 1 {
      SplitGlue(parts[0], "", sep);
      assert parts[0] + "" == parts[0];
    } else {
      var tail := Join(parts[1..], [sep]);
      SplitJoin(parts[1..], sep);
      SplitGlue(parts[0], [sep] + tail, sep);
      assert parts[0] + [sep] + tail == parts[0] + ([sep] + tail);
      assert ([sep] + tail)[1..] == tail;
      assert Split([sep] + tail, sep) == [""] + parts[1..];
      assert parts[0] + "" == parts[0];
      assert Join(parts, [sep]) == parts[0] + [sep] + tail;
      assert parts == [parts[0]] + parts[1..];
    }
  }

  /** The decimal digit for `d`. */
  function Digit(d: nat): char
    requires d < 10
  {
    ('0' as int + d) as char
  }

  predicate IsDigit(c: char)
  {
    '0' <= c <= '9'
  }

  /**
   * `str(n)` for a non-negative integer: decimal digits, no sign and no
   * leading zero, so that only zero is written with a leading '0'.
   */
  function Decimal(n: nat): (s: string)
    ensures |s| >= 1
    ensures forall i :: 0 <= i < |s| ==> IsDigit(s[i])
    ensures (s[0] == '0') <==> (n == 0)
    ensures n == 0 ==> s == "0"
  {
    if n < 10 then [Digit(n)] else Decimal(n / 10) + [Digit(n % 10)]
  }

  /** The value of a string of decimal digits (the inverse of `Decimal`). */
  function DecimalValue(s: string): nat
    requires forall i :: 0 <= i < |s| ==> IsDigit(s[i])
  {
    if s == [] then 0
    else
      assert IsDigit(s[|s| - 1]);
      DecimalValue(s[..|s| - 1]) * 10 + (s[|s| - 1] as int - '0' as int)
  }

  /** Reading back the decimal string of `n` gives `n`. */
  lemma {:induction false} DecimalRoundTrip(n: nat)
    ensures DecimalValue(Decimal(n)) == n
  {
    if n >= 10 {
      var d := Decimal(n / 10);
      DecimalRoundTrip(n / 10);
      assert (d + [Digit(n % 10)])[..|d|] == d;
    }
  }

  /** Distinct class indices are looked up under distinct keys. */
  lemma DecimalInjective(a: nat, b: nat)
    requires Decimal(a) == Decimal(b)
    ensures a == b
  {
    DecimalRoundTrip(a);
    DecimalRoundTrip(b);
  }

}
