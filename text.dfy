/**
 * Decimal rendering of integers (Python's `str` on an `int`), the comma join
 * (`",".join(...)`) the sampler uses to build its answer, and a reference
 * reader for that answer: split on ',' and parse every piece as a decimal
 * integer with an optional leading '-'.
 */
module Text {
  import opened Wrappers

  const Digits: string := "0123456789"

  predicate IsDigit(c: char) {
    '0' <= c <= '9'
  }

  function DigitChar(d: nat): (c: char)
    requires d < 10
    ensures IsDigit(c) && c as int - '0' as int == d
  {
    Digits[d]
  }

  function DigitValue(c: char): (d: nat)
    requires IsDigit(c)
    ensures d < 10 && DigitChar(d) == c
  {
    c as int - '0' as int
  }

  predicate AllDigits(s: string) {
    forall i :: 0 <= i < |s| ==> IsDigit(s[i])
  }

  /** Decimal digits of `n`, most significant first, without leading zeros. */
  function NatToString(n: nat): (s: string)
    ensures |s| >= 1 && AllDigits(s)
    ensures s[0] == '0' ==> n == 0
  {
    if n < 10 then [DigitChar(n)] else NatToString(n / 10) + [DigitChar(n % 10)]
  }

  /** Python's `str(n)` for an `int`: a '-' for negatives, then the digits of |n|. */
  function IntToString(n: int): (s: string)
    ensures |s| >= 1 && ',' !in s
    ensures n < 0 <==> s[0] == '-'
  {
    if n < 0 then "-" + NatToString(-n) else NatToString(n)
  }

  /** The value of a non-empty run of decimal digits; None for anything else. */
  function ParseDigits(s: string): (r: Option<nat>)
    ensures r.Some? ==> |s| >= 1 && AllDigits(s)
  {
    if |s| == 0 || !IsDigit(s[|s| - 1]) then None
    else if |s| == 1 then Some(DigitValue(s[0]))
    else match ParseDigits(s[..|s| - 1])
      case None => None
      case Some(p) => Some(10 * p + DigitValue(s[|s| - 1]))
  }

  /** Reads an optional '-' followed by decimal digits. */
  function ParseInt(s: string): (r: Option<int>)
    ensures r.Some? ==> |s| >= 1 && ',' !in s
  {
    if |s| >= 1 && s[0] == '-' then
      match ParseDigits(s[1..])
      case None => None
      case Some(m) => Some(0 - m)
    else
      match ParseDigits(s)
      case None => None
      case Some(m) => Some(m as int)
  }

  /** Python's `sep.join(pieces)` with the separator ','. */
  function Join(pieces: seq<string>): (s: string)
    ensures |pieces| == 0 ==> s == []
    ensures |pieces| >= 1 ==> |pieces[0]| <= |s| && s[..|pieces[0]|] == pieces[0]
    ensures |pieces| >= 2 ==> |pieces[0]| < |s| && s[|pieces[0]|] == ','
  {
    if |pieces| == 0 then ""
    else if |pieces| == 1 then pieces[0]
    else pieces[0] + "," + Join(pieces[1..])
  }

  /** Python's `s.split(",")`: never empty, and "" splits into [""]. */
  function Split(s: string): (pieces: seq<string>)
    ensures |pieces| >= 1
    ensures forall i :: 0 <= i < |pieces| ==> ',' !in pieces[i]
  {
    if s == [] then [[]]
    else
      var rest := Split(s[1..]);
      if s[0] == ',' then [[]] + rest
      else [[s[0]] + rest[0]] + rest[1..]
  }

  /** `",".join(map(str, xs))`. */
  function Render(xs: seq<int>): (s: string)
    ensures s == [] <==> xs == []
    ensures xs != [] ==> (s[0] == '-' <==> xs[0] < 0)
  {
    Join(seq(|xs|, i requires 0 <= i < |xs| => IntToString(xs[i])))
  }

  function ParseEach(pieces: seq<string>): (r: Option<seq<int>>)
    ensures r.Some? ==> |r.value| == |pieces|
  {
    if |pieces| == 0 then Some([])
    else match (ParseInt(pieces[0]), ParseEach(pieces[1..]))
      case (Some(x), Some(xs)) => Some([x] + xs)
      case _ => None
  }

  /**
   * Reads a rendered answer back: the empty text is the empty list, anything
   * else is split on ',' and every piece must be a decimal integer.
   */
  function ParseList(s: string): (r: Option<seq<int>>)
  {
    if s == [] then Some([]) else ParseEach(Split(s))
  }

  // ---------------------------------------------------------------- lemmas

  lemma {:induction false} ParseNatToString(n: nat)
    ensures ParseDigits(NatToString(n)) == Some(n)
  {
    if n >= 10 {
      var s := NatToString(n);
      ParseNatToString(n / 10);
      assert s[..|s| - 1] == NatToString(n / 10);
      assert s[|s| - 1] == DigitChar(n % 10);
    }
  }

  /** `str` followed by the reader gives back the integer. */
  lemma {:induction false} ParseIntToString(n: int)
    ensures ParseInt(IntToString(n)) == Some(n)
  {
    var s := IntToString(n);
    if n < 0 {
      var d := NatToString(-n);
      assert s == "-" + d;
      assert s[1..] == d;
      ParseNatToString(-n);
    } else {
      var d := NatToString(n);
      assert s == d && IsDigit(s[0]);
      ParseNatToString(n);
    }
  }

  lemma {:induction false} SplitWithoutComma(p: string)
    requires ',' !in p
    ensures Split(p) == [p]
  {
    if p != [] {
      assert p[1..] + [] == p[1..];
      SplitWithoutComma(p[1..]);
      assert [p[0]] + p[1..] == p;
    }
  }

  lemma {:induction false} SplitAfterPiece(p: string, t: string)
    requires ',' !in p
    ensures Split(p + "," + t) == [p] + Split(t)
  {
    var s := p + "," + t;
    if p == [] {
      assert s == "," + t && s[1..] == t;
    } else {
      assert s[0] == p[0];
      assert s[1..] == p[1..] + "," + t;
      SplitAfterPiece(p[1..], t);
      assert [p[0]] + p[1..] == p;
    }
  }

  /** Splitting undoes joining when no piece holds a ',' and there is a piece. */
  lemma {:induction false} SplitJoin(pieces: seq<string>)
    requires |pieces| >= 1
    requires forall i :: 0 <= i < |pieces| ==> ',' !in pieces[i]
    ensures Split(Join(pieces)) == pieces
  {
    if |pieces| == 1 {
      SplitWithoutComma(pieces[0]);
    } else {
      SplitJoin(pieces[1..]);
      SplitAfterPiece(pieces[0], Join(pieces[1..]));
    }
  }

  lemma {:induction false} ParseEachRendered(xs: seq<int>)
    ensures ParseEach(seq(|xs|, i requires 0 <= i < |xs| => IntToString(xs[i]))) == Some(xs)
  {
    var pieces := seq(|xs|, i requires 0 <= i < |xs| => IntToString(xs[i]));
    if |xs| > 0 {
      ParseIntToString(xs[0]);
      ParseEachRendered(xs[1..]);
      assert pieces[1..] == seq(|xs[1..]|, i requires 0 <= i < |xs[1..]| => IntToString(xs[1..][i]));
      assert [xs[0]] + xs[1..] == xs;
    }
  }

  /**
   * The answer is readable: splitting it on ',' and parsing every piece gives
   * back exactly the list that was rendered, the empty list included.
   */
  lemma ParseRender(xs: seq<int>)
    ensures ParseList(Render(xs)) == Some(xs)
    ensures Render(xs) == [] <==> xs == []
  {
    var pieces := seq(|xs|, i requires 0 <= i < |xs| => IntToString(xs[i]));
    if |xs| > 0 {
      assert pieces[0] == IntToString(xs[0]);
      assert Render(xs) != [] by {
        if |pieces| > 1 {
          assert |Render(xs)| >= |pieces[0]|;
        }
      }
      SplitJoin(pieces);
      ParseEachRendered(xs);
    }
  }
}
