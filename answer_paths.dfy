/**
 The endpoint path of the `/answers/{ids}` requests: `"answers/"` followed by the IDs,
 each rendered in decimal as Swift's `String(Int)` does, joined by `";"`. Beside the
 serialiser stand its partners: a parser that reads such a path back, and a separator count.
 */
module AnswerPaths {
  import opened Wrappers

  /** The path of the request for all answers (the literal the source passes, singular). */
  const AllAnswersPath: string := "answer"

  /** The prefix of the path of a request for answers by ID. */
  const AnswersPrefix: string := "answers/"

  /** The separator between the IDs of one path. */
  const Separator: char := ';'

  predicate IsDigit(c: char) {
    '0' <= c <= '9'
  }

  function DigitChar(n: nat): (c: char)
    requires n < 10
    ensures IsDigit(c) && (c as int) - ('0' as int) == n
  {
    (n + '0' as int) as char
  }

  /** The decimal digits of `n`, most significant first, without leading zeros. */
  function Digits(n: nat): (s: string)
    ensures |s| > 0 && forall i :: 0 <= i < |s| ==> IsDigit(s[i])
    ensures s[0] == '0' ==> n == 0
  {
    if n < 10 then [DigitChar(n)] else Digits(n / 10) + [DigitChar(n % 10)]
  }

  /** `String(n)` for a Swift `Int`: a minus sign for negative numbers, then the digits,
      in canonical form (no leading zero, no "-0"). */
  function Decimal(n: int): (s: string)
    ensures |s| > 0 && Separator !in s
    ensures s[0] == '-' <==> n < 0
    ensures s[0] == '0' ==> n == 0
    ensures n < 0 ==> |s| > 1 && s[1] != '0'
  {
    if n < 0 then "-" + Digits(-n) else Digits(n)
  }

  /** `ids.map { String($0) }` */
  function DecimalsOf(ids: seq<int>): (r: seq<string>)
    ensures |r| == |ids| && forall i :: 0 <= i < |ids| ==> r[i] == Decimal(ids[i])
  {
    if ids == [] then [] else [Decimal(ids[0])] + DecimalsOf(ids[1..])
  }

  /** `pieces.joined(separator: ";")` */
  function Join(pieces: seq<string>): (s: string) {
    if |pieces| == 0 then ""
    else if |pieces| == 1 then pieces[0]
    else pieces[0] + [Separator] + Join(pieces[1..])
  }

  /** The path of the request for the answers with the given IDs; an empty list is refused
      before any request is made, so it is excluded here. */
  function AnswersPath(ids: seq<int>): (path: string)
    requires |ids| > 0
    ensures |path| > |AnswersPrefix| && path[..|AnswersPrefix|] == AnswersPrefix
  {
    AnswersPrefix + Join(DecimalsOf(ids))
  }

  // ---- The partners: splitting, parsing, counting ----

  /** Splits `s` at every separator; the pieces between separators may be empty. */
  function Split(s: string): (r: seq<string>)
    ensures |r| > 0
  {
    if s == [] then [""]
    else if s[0] == Separator then [""] + Split(s[1..])
    else var rest := Split(s[1..]); [[s[0]] + rest[0]] + rest[1..]
  }

  /** The value of one decimal digit. */
  function DigitValue(c: char): (v: nat)
    requires IsDigit(c)
  {
    (c as int) - ('0' as int)
  }

  /** The value of a string of decimal digits. */
  function DigitsValue(s: string): (v: nat)
    requires forall i :: 0 <= i < |s| ==> IsDigit(s[i])
  {
    if s == [] then 0 else 10 * DigitsValue(s[..|s| - 1]) + DigitValue(s[|s| - 1])
  }

  /** Reads a decimal integer: an optional minus sign, then at least one digit. */
  function ParseDecimal(s: string): (r: Option<int>)
    ensures r.Some? ==> |s| > 0
  {
    if s != [] && s[0] == '-' then
      var t := s[1..];
      if t != [] && forall i :: 0 <= i < |t| ==> IsDigit(t[i]) then Some(-(DigitsValue(t) as int)) else None
    else if s != [] && forall i :: 0 <= i < |s| ==> IsDigit(s[i]) then Some(DigitsValue(s))
    else None
  }

  /** Reads every piece as a decimal integer, failing if any piece is not one. */
  function ParseAll(pieces: seq<string>): (r: Option<seq<int>>)
    ensures r.Some? ==> |r.value| == |pieces|
  {
    if pieces == [] then Some([])
    else match (ParseDecimal(pieces[0]), ParseAll(pieces[1..]))
      case (Some(n), Some(rest)) => Some([n] + rest)
      case _ => None
  }

  /** Reads the ID list back out of an answers path. */
  function ParseAnswersPath(path: string): (r: Option<seq<int>>) {
    if |path| >= |AnswersPrefix| && path[..|AnswersPrefix|] == AnswersPrefix
    then ParseAll(Split(path[|AnswersPrefix|..]))
    else None
  }

  /** The number of separators in `s`. */
  function SeparatorCount(s: string): (n: nat) {
    if s == [] then 0 else (if s[0] == Separator then 1 else 0) + SeparatorCount(s[1..])
  }

  // ---- Lemmas ----

  lemma {:induction false} DigitsRoundTrip(n: nat)
    ensures DigitsValue(Digits(n)) == n
  {
    if n >= 10 {
      var s := Digits(n);
      assert s[..|s| - 1] == Digits(n / 10);
      DigitsRoundTrip(n / 10);
    }
  }

  /** Reading back the decimal rendering of a number gives the number. */
  lemma DecimalRoundTrip(n: int)
    ensures ParseDecimal(Decimal(n)) == Some(n)
  {
    if n < 0 {
      DigitsRoundTrip(-n);
      assert Decimal(n)[1..] == Digits(-n);
    } else {
      DigitsRoundTrip(n);
    }
  }

  lemma {:induction false} SplitWithoutSeparator(p: string)
    requires Separator !in p
    ensures Split(p) == [p]
  {
    if p != [] {
      assert Separator !in p[1..];
      SplitWithoutSeparator(p[1..]);
      assert [p[0]] + p[1..] == p;
    }
  }

  lemma {:induction false} SplitAtSeparator(p: string, rest: string)
    requires Separator !in p
    ensures Split(p + [Separator] + rest) == [p] + Split(rest)
  {
    if p == [] {
      assert p + [Separator] + rest == [Separator] + rest;
    } else {
      var q := p + [Separator] + rest;
      assert q[0] == p[0] != Separator;
      assert q[1..] == p[1..] + [Separator] + rest;
      assert Separator !in p[1..];
      SplitAtSeparator(p[1..], rest);
      assert [p[0]] + p[1..] == p;
    }
  }

  /** Splitting a join gives back the pieces, provided no piece holds a separator. */
  lemma {:induction false} SplitJoin(pieces: seq<string>)
    requires |pieces| > 0
    requires forall i :: 0 <= i < |pieces| ==> Separator !in pieces[i]
    ensures Split(Join(pieces)) == pieces
  {
    if |pieces| == 1 {
      SplitWithoutSeparator(pieces[0]);
    } else {
      SplitAtSeparator(pieces[0], Join(pieces[1..]));
      SplitJoin(pieces[1..]);
    }
  }

  lemma {:induction false} ParseAllDecimals(ids: seq<int>)
    ensures ParseAll(DecimalsOf(ids)) == Some(ids)
  {
    if ids != [] {
      DecimalRoundTrip(ids[0]);
      assert DecimalsOf(ids)[1..] == DecimalsOf(ids[1..]);
      ParseAllDecimals(ids[1..]);
      assert [ids[0]] + ids[1..] == ids;
    }
  }

  /** After the prefix, the path consists of the decimal renderings of the IDs, in input
      order, separated by ";". */
  lemma PathPieces(ids: seq<int>)
    requires |ids| > 0
    ensures Split(AnswersPath(ids)[|AnswersPrefix|..]) == DecimalsOf(ids)
  {
    assert AnswersPath(ids)[|AnswersPrefix|..] == Join(DecimalsOf(ids));
    SplitJoin(DecimalsOf(ids));
  }

  /** Round trip: parsing the path gives back the original ID list. */
  lemma AnswersPathRoundTrip(ids: seq<int>)
    requires |ids| > 0
    ensures ParseAnswersPath(AnswersPath(ids)) == Some(ids)
  {
    PathPieces(ids);
    ParseAllDecimals(ids);
  }

  /** Different ID lists give different paths. */
  lemma AnswersPathInjective(ids: seq<int>, ids': seq<int>)
    requires |ids| > 0 && |ids'| > 0
    requires AnswersPath(ids) == AnswersPath(ids')
    ensures ids == ids'
  {
    AnswersPathRoundTrip(ids);
    AnswersPathRoundTrip(ids');
  }

  lemma {:induction false} SeparatorCountAppend(a: string, b: string)
    ensures SeparatorCount(a + b) == SeparatorCount(a) + SeparatorCount(b)
  {
    if a == [] {
      assert a + b == b;
    } else {
      assert (a + b)[1..] == a[1..] + b;
      SeparatorCountAppend(a[1..], b);
    }
  }

  lemma {:induction false} SeparatorCountNone(p: string)
    requires Separator !in p
    ensures SeparatorCount(p) == 0
  {
    if p != [] {
      assert Separator !in p[1..];
      SeparatorCountNone(p[1..]);
    }
  }

  lemma {:induction false} JoinSeparators(pieces: seq<string>)
    requires |pieces| > 0
    requires forall i :: 0 <= i < |pieces| ==> Separator !in pieces[i]
    ensures SeparatorCount(Join(pieces)) == |pieces| - 1
  {
    if |pieces| == 1 {
      SeparatorCountNone(pieces[0]);
    } else {
      SeparatorCountAppend(pieces[0] + [Separator], Join(pieces[1..]));
      SeparatorCountAppend(pieces[0], [Separator]);
      SeparatorCountNone(pieces[0]);
      JoinSeparators(pieces[1..]);
    }
  }

  /** The path for n IDs holds exactly n - 1 separators. */
  lemma AnswersPathSeparators(ids: seq<int>)
    requires |ids| > 0
    ensures SeparatorCount(AnswersPath(ids)) == |ids| - 1
  {
    SeparatorCountAppend(AnswersPrefix, Join(DecimalsOf(ids)));
    assert SeparatorCount(AnswersPrefix) == 0 by { SeparatorCountNone(AnswersPrefix); }
    JoinSeparators(DecimalsOf(ids));
  }

  /** `fetchAnswer(id)` asks for the one-element list, so its path is the prefix and one number. */
  lemma SingleAnswerPath(id: int)
    ensures AnswersPath([id]) == AnswersPrefix + Decimal(id)
    ensures ParseAnswersPath(AnswersPath([id])) == Some([id])
  {
    AnswersPathRoundTrip([id]);
  }
}
