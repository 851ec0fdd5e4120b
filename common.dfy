/** Rust's `Option` and `Result`, and the byte type the HTTP layer works in. */
module Common {

  datatype Option<+T> = None | Some(value: T)

  datatype Result<+T, +E> = Ok(value: T) | Err(error: E)

  /** A Rust `u8`. */
  type byte = x: int | 0 <= x < 256
}

/**
 * The pieces of Rust's `str` and `ToString` that the client relies on:
 * `split` with a one-character pattern, `join`, and the decimal rendering
 * of unsigned integers.
 */
module Strings {

  /**
   * `s.split(c)`: the pieces of `s` between occurrences of `c`. There is
   * always at least one piece, and no piece contains `c`.
   */
  function Split(s: string, c: char): (pieces: seq<string>)
    ensures |pieces| >= 1
    ensures forall k :: 0 <= k < |pieces| ==> c !in pieces[k]
  {
    if s == [] then [""]
    else
      var rest := Split(s[1..], c);
      if s[0] == c then [""] + rest
      else [[s[0]] + rest[0]] + rest[1..]
  }

  /** `parts.join(sep)`: the parts with `sep` between neighbours. */
  function Join(parts: seq<string>, sep: string): string
  {
    if |parts| == 0 then ""
    else if |parts| == 1 then parts[0]
    else parts[0] + sep + Join(parts[1..], sep)
  }

  /** Splitting `p + t` where `p` holds no separator glues `p` onto the first piece of `t`. */
  lemma {:induction false} SplitAfterPlain(p: string, t: string, c: char)
    requires c !in p
    ensures Split(p + t, c) == [p + Split(t, c)[0]] + Split(t, c)[1..]
  {
    if p != [] {
      var rest := Split(p[1..] + t, c);
      assert (p + t)[1..] == p[1..] + t;
      assert (p + t)[0] == p[0] != c;
      assert Split(p + t, c) == [[p[0]] + rest[0]] + rest[1..];
      SplitAfterPlain(p[1..], t, c);
      assert rest[0] == p[1..] + Split(t, c)[0];
      assert rest[1..] == Split(t, c)[1..];
      assert [p[0]] + (p[1..] + Split(t, c)[0]) == p + Split(t, c)[0];
    } else {
      assert p + t == t;
      assert p + Split(t, c)[0] == Split(t, c)[0];
      assert Split(t, c) == [Split(t, c)[0]] + Split(t, c)[1..];
    }
  }

  /** The first piece of a split is the longest prefix free of `c`; the rest are the split of what follows it. */
  lemma {:induction false} SplitFirstPiece(s: string, c: char)
    ensures var p := Split(s, c)[0];
      p <= s &&
      (|p| == |s| <==> c !in s) &&
      (|p| < |s| ==> s[|p|] == c && Split(s, c)[1..] == Split(s[|p| + 1..], c))
  {
    if s != [] {
      SplitFirstPiece(s[1..], c);
      if s[0] != c {
        assert s == [s[0]] + s[1..];
      }
    }
  }

  /** A split has more than one piece exactly when the separator occurs. */
  lemma SplitCount(s: string, c: char)
    ensures |Split(s, c)| > 1 <==> c in s
  {
    SplitFirstPiece(s, c);
  }

  /** Joining the pieces of a split with the separator gives the text back. */
  lemma {:induction false} JoinSplit(s: string, c: char)
    ensures Join(Split(s, c), [c]) == s
  {
    if s != [] {
      var rest := Split(s[1..], c);
      JoinSplit(s[1..], c);
      if s[0] == c {
        assert Split(s, c) == [""] + rest;
        assert ([""] + rest)[1..] == rest;
        assert Join([""] + rest, [c]) == "" + [c] + Join(rest, [c]);
        assert s == [c] + s[1..];
      } else {
        var pieces := [[s[0]] + rest[0]] + rest[1..];
        assert Split(s, c) == pieces;
        if |rest| == 1 {
          assert Join(pieces, [c]) == [s[0]] + rest[0];
          assert Join(rest, [c]) == rest[0];
        } else {
          assert pieces[1..] == rest[1..];
          assert Join(pieces, [c]) == [s[0]] + rest[0] + [c] + Join(rest[1..], [c]);
          assert Join(rest, [c]) == rest[0] + [c] + Join(rest[1..], [c]);
        }
        assert s == [s[0]] + s[1..];
      }
    }
  }

  /** Splitting a join gives the parts back, when no part holds the separator. */
  lemma {:induction false} SplitJoin(parts: seq<string>, c: char)
    requires |parts| >= 1
    requires forall k :: 0 <= k < |parts| ==> c !in parts[k]
    ensures Split(Join(parts, [c]), c) == parts
  {
    if |parts| == 1 {
      SplitAfterPlain(parts[0], "", c);
      assert parts[0] + "" == parts[0];
    } else {
      var tail := Join(parts[1..], [c]);
      SplitJoin(parts[1..], c);
      SplitAfterPlain(parts[0], [c] + tail, c);
      assert parts[0] + [c] + tail == parts[0] + ([c] + tail);
      assert Join(parts, [c]) == parts[0] + [c] + tail;
      assert ([c] + tail)[1..] == tail;
      assert Split([c] + tail, c) == [""] + Split(tail, c);
      assert parts[0] + "" == parts[0];
      assert parts == [parts[0]] + parts[1..];
    }
  }

  /** One decimal digit as a character. */
  function DigitChar(d: nat): (ch: char)
    requires d < 10
    ensures '0' <= ch <= '9' && ch as int - '0' as int == d
  {
    (d + '0' as int) as char
  }

  predicate IsDigits(s: string)
  {
    forall k :: 0 <= k < |s| ==> '0' <= s[k] <= '9'
  }

  /** `n.to_string()` for an unsigned integer: decimal digits without leading zeros. */
  function NatToString(n: nat): (s: string)
    ensures |s| >= 1 && IsDigits(s)
    ensures s[0] == '0' <==> n == 0
    decreases n
  {
    if n < 10 then [DigitChar(n)] else NatToString(n / 10) + [DigitChar(n % 10)]
  }

  /** The number a string of decimal digits denotes. */
  function ParseNat(s: string): nat
    requires IsDigits(s)
  {
    if s == [] then 0
    else 10 * ParseNat(s[..|s| - 1]) + (s[|s| - 1] as int - '0' as int)
  }

  /** Reading back a rendered number gives the number. */
  lemma {:induction false} ParseNatToString(n: nat)
    ensures ParseNat(NatToString(n)) == n
    decreases n
  {
    if n >= 10 {
      var s := NatToString(n);
      ParseNatToString(n / 10);
      assert s[..|s| - 1] == NatToString(n / 10);
    }
  }

  /** `b.to_string()` for a Rust `bool`. */
  function BoolToString(b: bool): (s: string)
    ensures s == "true" || s == "false"
    ensures (s == "true") == b
  {
    if b then "true" else "false"
  }
}
