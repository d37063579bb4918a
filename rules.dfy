/** The arithmetic rules of the countdown engine (models/game.ts), apart from
    the objects they are applied to: bust detection, the score a dart leaves,
    when a finish ends the game, whose turn comes next, and the starting
    score a game type gives. */
module GameRules {
  import opened DartsTypes

  // ---------------------------------------------------------------- busts and finishes

  /** A dart busts when it takes the score below zero, or, under double-out,
      leaves exactly one or reaches zero on anything but a double. */
  predicate IsBust(pre: int, d: Dart, ft: FinishType) {
    var post := pre - Points(d);
    post < 0 || (ft == DoubleOut && post == 1) || (post == 0 && ft == DoubleOut && d.multiplier != 2)
  }

  /** The player's score after dart `d` of a countdown game, thrown with
      `pre` left after the turn's `earlier` darts: on a bust the turn's darts,
      the busting one included, are credited back; otherwise the dart's points
      are taken off. */
  function CountdownScore(pre: int, earlier: seq<Dart>, d: Dart, ft: FinishType): int {
    if IsBust(pre, d, ft) then pre + Total(earlier + [d]) else pre - Points(d)
  }

  /** Outside a bust the new score is never negative, never one under
      double-out, and reaches zero under double-out only on a double. */
  lemma NoBustOutcomes(pre: int, earlier: seq<Dart>, d: Dart, ft: FinishType)
    requires !IsBust(pre, d, ft)
    ensures var post := CountdownScore(pre, earlier, d, ft);
      post >= 0 && post == pre - Points(d) &&
      (ft == DoubleOut ==> post != 1 && (post == 0 ==> d.multiplier == 2))
  {
  }

  /** A bust does not restore the score the turn started with: the busting
      dart, which was never taken off, is credited as well. */
  lemma BustOverCredits(start: int, earlier: seq<Dart>, d: Dart, ft: FinishType)
    requires IsBust(start - Total(earlier), d, ft)
    ensures CountdownScore(start - Total(earlier), earlier, d, ft) == start + Points(d)
  {
    TotalAppend(earlier, [d]);
    assert Total([d]) == Total([]) + Points(d);
  }

  lemma {:induction false} TotalNonNegative(ds: seq<Dart>)
    requires forall i :: 0 <= i < |ds| ==> Points(ds[i]) >= 0
    ensures Total(ds) >= 0
  {
    if ds != [] {
      TotalNonNegative(ds[..|ds| - 1]);
    }
  }

  /** With darts worth no negative points, a countdown score never drops below zero. */
  lemma ScoreStaysNonNegative(pre: int, earlier: seq<Dart>, d: Dart, ft: FinishType)
    requires pre >= 0 && Points(d) >= 0
    requires forall i :: 0 <= i < |earlier| ==> Points(earlier[i]) >= 0
    ensures CountdownScore(pre, earlier, d, ft) >= 0
  {
    var all := earlier + [d];
    assert forall i :: 0 <= i < |all| ==> Points(all[i]) >= 0 by {
      forall i | 0 <= i < |all|
        ensures Points(all[i]) >= 0
      {
        if i < |earlier| { assert all[i] == earlier[i]; }
      }
    }
    TotalNonNegative(all);
  }

  /** The status `alertFinish` leaves after a finish that brought the ranking
      to `ranked` of `count` players. */
  function AlertStatus(status: Status, isFinishAtFirst: bool, ranked: int, count: int): Status {
    if isFinishAtFirst && ranked >= 1 then Finished
    else if ranked == count then (if count == 1 && !isFinishAtFirst then status else Finished)
    else status
  }

  /** Right after a finish the game ends exactly when it ends at the first
      finisher, or when every player is ranked and it is not a lone player
      practising; otherwise the status is left as it was. */
  lemma AlertStatusMeaning(status: Status, isFinishAtFirst: bool, ranked: int, count: int)
    requires ranked >= 1
    ensures var s := AlertStatus(status, isFinishAtFirst, ranked, count);
      (s == status || s == Finished) &&
      (isFinishAtFirst || (ranked == count && count != 1) ==> s == Finished) &&
      (!isFinishAtFirst && (ranked != count || count == 1) ==> s == status)
  {
  }

  // ---------------------------------------------------------------- turn order

  /** The order that plays after order `o` among `n` players. */
  function NextOrder(o: int, n: int): int {
    if o == n then 1 else o + 1
  }

  /** The order reached after `k` hand-overs starting from order `o`. */
  function Iterate(o: int, n: int, k: nat): int
    decreases k
  {
    if k == 0 then o else Iterate(NextOrder(o, n), n, k - 1)
  }

  lemma {:induction false} IterateAdds(o: int, n: int, a: nat, b: nat)
    ensures Iterate(o, n, a + b) == Iterate(Iterate(o, n, a), n, b)
    decreases a
  {
    if a > 0 {
      IterateAdds(NextOrder(o, n), n, a - 1, b);
    }
  }

  /** Below the last order, hand-overs count up one by one. */
  lemma {:induction false} IterateCountsUp(o: int, n: int, k: nat)
    requires o + k <= n
    ensures Iterate(o, n, k) == o + k
    decreases k
  {
    if k > 0 {
      IterateCountsUp(o + 1, n, k - 1);
    }
  }

  /** Starting inside 1..n, hand-overs never leave 1..n. */
  lemma {:induction false} IterateStaysInRange(o: int, n: int, k: nat)
    requires 1 <= o <= n
    ensures 1 <= Iterate(o, n, k) <= n
    decreases k
  {
    if k > 0 {
      IterateStaysInRange(NextOrder(o, n), n, k - 1);
    }
  }

  /** Every order in 1..n comes round within n hand-overs, whichever order in
      1..n starts. */
  lemma EveryOrderComesRound(o: int, n: int, target: int) returns (k: nat)
    requires 1 <= o <= n && 1 <= target <= n
    ensures 1 <= k <= n && Iterate(o, n, k) == target
  {
    if target > o {
      k := target - o;
      IterateCountsUp(o, n, k);
    } else {
      IterateCountsUp(o, n, n - o);
      IterateAdds(o, n, n - o, 1);
      IterateCountsUp(1, n, target - 1);
      IterateAdds(o, n, n - o + 1, target - 1);
      k := n - o + target;
    }
  }

  // ---------------------------------------------------------------- starting scores

  /** The characters JavaScript's `parseInt` skips before the number
      (WhiteSpace and LineTerminator of ECMAScript). */
  predicate IsJsSpace(c: char) {
    c == ' ' || c == '\t' || c == '\n' || c == '\r' || c == '\U{000B}' || c == '\U{000C}'
    || c == '\U{00A0}' || c == '\U{FEFF}' || c == '\U{1680}' || ('\U{2000}' <= c <= '\U{200A}')
    || c == '\U{2028}' || c == '\U{2029}' || c == '\U{202F}' || c == '\U{205F}' || c == '\U{3000}'
  }

  /** `parseInt`'s skipping of leading white space: drops the longest
      prefix of white space and nothing else. */
  function TrimStart(s: string): (r: string)
    ensures |r| <= |s| && r == s[|s| - |r|..]
    ensures r != [] ==> !IsJsSpace(r[0])
    ensures AllJsSpace(s[..|s| - |r|])
  {
    if s != [] && IsJsSpace(s[0]) then
      var r := TrimStart(s[1..]);
      var p := s[1..][..|s| - 1 - |r|];
      assert s[..|s| - |r|] == [s[0]] + p;
      SpaceThenSpace(s[0], p);
      r
    else s
  }

  predicate AllJsSpace(s: string) {
    forall i :: 0 <= i < |s| ==> IsJsSpace(s[i])
  }

  lemma SpaceThenSpace(c: char, p: string)
    requires IsJsSpace(c) && AllJsSpace(p)
    ensures AllJsSpace([c] + p)
  {
    assert forall i :: 1 <= i <= |p| ==> ([c] + p)[i] == p[i - 1];
  }

  /** The longest prefix of decimal digits. */
  function DigitPrefix(s: string): (r: string)
    ensures r <= s && forall i :: 0 <= i < |r| ==> IsDigit(r[i])
    ensures |r| < |s| ==> !IsDigit(s[|r|])
  {
    if s != [] && IsDigit(s[0]) then [s[0]] + DigitPrefix(s[1..]) else []
  }

  /** `parseInt(s, 10)`: leading spaces, an optional sign, then as many
      digits as there are; `None` stands for NaN. */
  function ParseInt(s: string): Option<int> {
    ParseSigned(TrimStart(s))
  }

  function ParseSigned(t: string): Option<int> {
    if t != [] && t[0] == '-' then
      match ParseUnsigned(t[1..])
      case Some(v) => Some(-v)
      case None => None
    else if t != [] && t[0] == '+' then ParseUnsigned(t[1..])
    else ParseUnsigned(t)
  }

  function ParseUnsigned(u: string): Option<int> {
    var digits := DigitPrefix(u);
    if digits == [] then None else Some(DecimalValue(digits))
  }

  /** Text that does not start with white space is parsed as it is. */
  lemma {:induction false} TrimStartKeeps(s: string)
    requires s != [] && !IsJsSpace(s[0])
    ensures TrimStart(s) == s
  {
  }

  /** Text starting with a digit parses without sign handling. */
  lemma {:induction false} ParseUnsignedText(u: string)
    requires u != [] && IsDigit(u[0])
    ensures ParseInt(u) == ParseUnsigned(u)
  {
    TrimStartKeeps(u);
  }

  /** A minus sign in front of text starting with a digit negates its value. */
  lemma {:induction false} ParseMinusText(u: string, v: int)
    requires u != [] && IsDigit(u[0]) && ParseUnsigned(u) == Some(v)
    ensures ParseInt(['-'] + u) == Some(-v)
  {
    TrimStartKeeps(['-'] + u);
    assert (['-'] + u)[1..] == u;
  }

  lemma {:induction false} ParseUnsignedDigits(digits: string, rest: string)
    requires digits != [] && forall i :: 0 <= i < |digits| ==> IsDigit(digits[i])
    requires rest == [] || !IsDigit(rest[0])
    ensures ParseUnsigned(digits + rest) == Some(DecimalValue(digits))
  {
    DigitsThenRest(digits, rest);
  }

  /** Digits followed by anything that does not start with a digit parse as
      the number the digits spell. */
  lemma {:induction false} ParseDigitsThenRest(digits: string, rest: string)
    requires digits != [] && forall i :: 0 <= i < |digits| ==> IsDigit(digits[i])
    requires rest == [] || !IsDigit(rest[0])
    ensures ParseInt(digits + rest) == Some(DecimalValue(digits))
  {
    ParseUnsignedDigits(digits, rest);
    assert (digits + rest)[0] == digits[0];
    ParseUnsignedText(digits + rest);
  }

  /** The decimal text of a number, followed by anything that does not start
      with a digit, parses back to the number. */
  lemma {:induction false} ParseNumeral(n: nat, rest: string)
    requires rest == [] || !IsDigit(rest[0])
    ensures ParseInt(NatToString(n) + rest) == Some(n)
  {
    NatToStringReadsBack(n);
    ParseDigitsThenRest(NatToString(n), rest);
  }

  /** With a minus sign in front it parses to the negated number. */
  lemma {:induction false} ParseNegativeNumeral(n: nat, rest: string)
    requires rest == [] || !IsDigit(rest[0])
    ensures ParseInt(['-'] + NatToString(n) + rest) == Some(-(n as int))
  {
    NatToStringReadsBack(n);
    ParseMinusDigitsThenRest(NatToString(n), rest);
    AppendAssoc(['-'], NatToString(n), rest);
  }

  lemma {:induction false} ParseMinusDigitsThenRest(digits: string, rest: string)
    requires digits != [] && forall i :: 0 <= i < |digits| ==> IsDigit(digits[i])
    requires rest == [] || !IsDigit(rest[0])
    ensures ParseInt(['-'] + (digits + rest)) == Some(-(DecimalValue(digits) as int))
  {
    ParseUnsignedDigits(digits, rest);
    assert (digits + rest)[0] == digits[0];
    ParseMinusText(digits + rest, DecimalValue(digits));
  }

  lemma {:induction false} DigitsThenRest(digits: string, rest: string)
    requires forall i :: 0 <= i < |digits| ==> IsDigit(digits[i])
    requires rest == [] || !IsDigit(rest[0])
    ensures DigitPrefix(digits + rest) == digits
  {
    if digits != [] {
      assert (digits + rest)[1..] == digits[1..] + rest;
      DigitsThenRest(digits[1..], rest);
    }
  }

  /** The score every player starts from after `resetGame` for a game type. */
  function StartScore(kind: string): int {
    if kind == "501" then 501
    else if kind == "301" then 301
    else if kind == "Capital" then 0
    else match ParseInt(kind)
      case Some(n) => n
      case None => 501
  }

  /** Apart from Capital, the starting score is the number the type names,
      and 501 when it names none. */
  lemma {:induction false} StartScoreMeaning(kind: string)
    requires kind != "Capital"
    ensures StartScore(kind) == match ParseInt(kind) case Some(n) => n case None => 501
  {
    if kind == "501" {
      ParseThreeDigits(kind);
    } else if kind == "301" {
      ParseThreeDigits(kind);
    }
  }

  /** Three decimal digits parse to the number they spell. */
  lemma {:induction false} ParseThreeDigits(s: string)
    requires |s| == 3 && IsDigit(s[0]) && IsDigit(s[1]) && IsDigit(s[2])
    ensures ParseInt(s) == Some(100 * (s[0] as int - '0' as int) + 10 * (s[1] as int - '0' as int) + (s[2] as int - '0' as int))
  {
    assert s + "" == s;
    ParseDigitsThenRest(s, "");
    ThreeDigitValue(s);
  }

  lemma {:induction false} ThreeDigitValue(s: string)
    requires |s| == 3 && IsDigit(s[0]) && IsDigit(s[1]) && IsDigit(s[2])
    ensures DecimalValue(s) == 100 * (s[0] as int - '0' as int) + 10 * (s[1] as int - '0' as int) + (s[2] as int - '0' as int)
  {
    var d0, d1, d2 := s[0] as int - '0' as int, s[1] as int - '0' as int, s[2] as int - '0' as int;
    assert s[..2][..1][..0] == [];
    assert DecimalValue(s[..1]) == d0 by {
      assert s[..2][..1] == s[..1];
    }
    assert DecimalValue(s[..2]) == 10 * d0 + d1 by {
      assert s[..2][..1] == s[..1];
    }
    assert s[..|s| - 1] == s[..2];
  }

  /** A game type that is the decimal text of a number starts every player
      on that number. */
  lemma StartScoreOfNumber(n: nat)
    ensures StartScore(NatToString(n)) == n
  {
    var kind := NatToString(n);
    NatToStringReadsBack(n);
    assert kind != "Capital" by { assert IsDigit(kind[0]); }
    assert kind + "" == kind;
    ParseNumeral(n, "");
    StartScoreMeaning(kind);
  }
}
