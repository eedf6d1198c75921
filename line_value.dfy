/**
 * The line value extractor (`getValue`): the number that follows the first
 * occurrence of a key in one g-code line, ignoring keys that only appear
 * after the `;` comment delimiter.
 *
 * Numerals are the two regular-expression shapes the extractor tries in
 * turn, anchored at the start of the text after the key:
 *   shape A  `-?[0-9]+\.?[0-9]*`  (a leading digit: "12", "5.", "-0.25")
 *   shape B  `-?[0-9]*\.?[0-9]+`  (a trailing digit: ".3", "-.5")
 * Both are stated declaratively (MatchesLeadingDigit, MatchesTrailingDigit)
 * and the scanners are proved to return the longest matching prefix, which
 * is what a backtracking engine returns for these greedy patterns.
 */
module LineValue {
  import opened Optional
  import opened Text

  predicate IsDigit(c: char) {
    '0' <= c <= '9'
  }

  /** Length of the optional leading minus sign. */
  function SignLength(t: string): (n: nat)
    ensures n <= |t|
  {
    if |t| > 0 && t[0] == '-' then 1 else 0
  }

  function DropSign(t: string): string {
    t[SignLength(t)..]
  }

  /** Only digits and at most one decimal point. */
  ghost predicate DigitsAndPoint(u: string) {
    (forall i :: 0 <= i < |u| ==> IsDigit(u[i]) || u[i] == '.') &&
    (forall i, j :: 0 <= i < j < |u| ==> u[i] != '.' || u[j] != '.')
  }

  /** `t` as a whole matches `-?[0-9]+\.?[0-9]*`. */
  ghost predicate MatchesLeadingDigit(t: string) {
    var u := DropSign(t);
    |u| > 0 && IsDigit(u[0]) && DigitsAndPoint(u)
  }

  /** `t` as a whole matches `-?[0-9]*\.?[0-9]+`. */
  ghost predicate MatchesTrailingDigit(t: string) {
    var u := DropSign(t);
    |u| > 0 && IsDigit(u[|u| - 1]) && DigitsAndPoint(u)
  }

  /** Number of digits at the start of `s`. */
  function LeadingDigits(s: string): (n: nat)
    ensures n <= |s|
  {
    if |s| == 0 || !IsDigit(s[0]) then 0 else 1 + LeadingDigits(s[1..])
  }

  /** The run is all digits, and stops at the first character that is not one. */
  lemma {:induction false} LeadingDigitsRun(s: string)
    ensures forall i :: 0 <= i < LeadingDigits(s) ==> IsDigit(s[i])
    ensures LeadingDigits(s) < |s| ==> !IsDigit(s[LeadingDigits(s)])
  {
    if |s| > 0 && IsDigit(s[0]) {
      LeadingDigitsRun(s[1..]);
    }
  }

  /** The prefix of length `n` has the same sign as `s` and the sign drops off the same way. */
  lemma DropSignPrefix(s: string, n: nat)
    requires SignLength(s) <= n <= |s|
    ensures DropSign(s[..n]) == s[SignLength(s)..n]
  {
    if SignLength(s) == 1 {
      assert s[..n][0] == '-';
    } else if n > 0 {
      assert s[..n][0] == s[0];
    }
  }

  /** A prefix too short to reach past the sign matches neither shape. */
  lemma SignOnly(s: string, n: nat)
    requires n <= |s| && n <= SignLength(s)
    ensures DropSign(s[..n]) == ""
  {
    if n == 1 {
      assert s[..n][0] == '-';
    }
  }

  /** The digit run that starts at index `m` of `s`, in terms of `s` itself. */
  lemma DigitRunAt(s: string, m: nat)
    requires m <= |s|
    ensures forall i :: m <= i < m + LeadingDigits(s[m..]) ==> IsDigit(s[i])
    ensures m + LeadingDigits(s[m..]) < |s| ==> !IsDigit(s[m + LeadingDigits(s[m..])])
  {
    var t := s[m..];
    LeadingDigitsRun(t);
    forall i | m <= i < m + LeadingDigits(t) ensures IsDigit(s[i]) {
      assert t[i - m] == s[i];
    }
    if m + LeadingDigits(t) < |s| {
      assert t[LeadingDigits(t)] == s[m + LeadingDigits(t)];
    }
  }

  /** Digits, one point at `p`, digits. */
  lemma OnePoint(u: string, p: nat)
    requires p < |u| && u[p] == '.'
    requires forall i :: 0 <= i < |u| && i != p ==> IsDigit(u[i])
    ensures DigitsAndPoint(u)
  {
  }

  /** Digits only. */
  lemma NoPoint(u: string)
    requires forall i :: 0 <= i < |u| ==> IsDigit(u[i])
    ensures DigitsAndPoint(u)
  {
  }

  /** A character that is neither a digit nor a point spoils the numeral. */
  lemma BadChar(u: string, i: nat)
    requires i < |u| && !IsDigit(u[i]) && u[i] != '.'
    ensures !DigitsAndPoint(u)
  {
  }

  /** So does a second point. */
  lemma SecondPoint(u: string, i: nat, j: nat)
    requires i < j < |u| && u[i] == '.' && u[j] == '.'
    ensures !DigitsAndPoint(u)
  {
  }

  /** Scans `-?[0-9]+\.?[0-9]*` at the start of `s`: the length of the match, if any. */
  function ScanLeadingDigit(s: string): (r: Option<nat>)
    ensures r.Some? ==> r.value <= |s|
  {
    var m := SignLength(s);
    var d := LeadingDigits(s[m..]);
    var n := m + d;
    if d == 0 then None
    else if n < |s| && s[n] == '.' then Some(n + 1 + LeadingDigits(s[n + 1..]))
    else Some(n)
  }

  /** The scan finds the longest prefix of the first shape, and None exactly when no prefix has it. */
  lemma ScanLeadingDigitSpec(s: string)
    ensures ScanLeadingDigit(s).Some? ==> MatchesLeadingDigit(s[..ScanLeadingDigit(s).value])
    ensures ScanLeadingDigit(s).Some? ==> forall n :: ScanLeadingDigit(s).value < n <= |s| ==> !MatchesLeadingDigit(s[..n])
    ensures ScanLeadingDigit(s).None? ==> forall n :: 0 <= n <= |s| ==> !MatchesLeadingDigit(s[..n])
  {
    var m := SignLength(s);
    var d := LeadingDigits(s[m..]);
    var n := m + d;
    if d == 0 {
      NoLeadingDigit(s);
    } else if n < |s| && s[n] == '.' {
      LeadingDigitWithPoint(s, n, LeadingDigits(s[n + 1..]));
    } else {
      LeadingDigitWithoutPoint(s, n);
    }
  }

  lemma NoLeadingDigit(s: string)
    requires LeadingDigits(s[SignLength(s)..]) == 0
    ensures forall n :: 0 <= n <= |s| ==> !MatchesLeadingDigit(s[..n])
  {
    var m := SignLength(s);
    forall n | 0 <= n <= |s| ensures !MatchesLeadingDigit(s[..n]) {
      if n <= m {
        SignOnly(s, n);
      } else {
        DropSignPrefix(s, n);
        assert DropSign(s[..n])[0] == s[m..][0];
      }
    }
  }

  /** The numeral `digits . digits` that ends at index `e`, and nothing longer. */
  lemma PointNumeral(s: string, n: nat, e: nat)
    requires SignLength(s) <= n < e <= |s| && s[n] == '.'
    requires n - SignLength(s) == LeadingDigits(s[SignLength(s)..])
    requires e - n - 1 == LeadingDigits(s[n + 1..])
    ensures DigitsAndPoint(s[SignLength(s)..e])
    ensures forall k :: e < k <= |s| ==> !DigitsAndPoint(s[SignLength(s)..k])
  {
    var m := SignLength(s);
    PointNumeralDigits(s, m, n, e);
    forall k | e < k <= |s| ensures !DigitsAndPoint(s[m..k]) {
      PointNumeralEnd(s, m, n, e, k);
    }
  }

  lemma PointNumeralDigits(s: string, m: nat, n: nat, e: nat)
    requires m <= n < e <= |s| && s[n] == '.'
    requires n - m == LeadingDigits(s[m..])
    requires e - n - 1 == LeadingDigits(s[n + 1..])
    ensures DigitsAndPoint(s[m..e])
  {
    DigitRunAt(s, m);
    DigitRunAt(s, n + 1);
    var u := s[m..e];
    forall i | 0 <= i < |u| && i != n - m ensures IsDigit(u[i]) {
      assert u[i] == s[m + i];
    }
    OnePoint(u, n - m);
  }

  lemma PointNumeralEnd(s: string, m: nat, n: nat, e: nat, k: nat)
    requires m <= n < e < k <= |s| && s[n] == '.'
    requires e - n - 1 == LeadingDigits(s[n + 1..])
    ensures !DigitsAndPoint(s[m..k])
  {
    DigitRunAt(s, n + 1);
    var w := s[m..k];
    assert w[e - m] == s[e] && w[n - m] == s[n];
    if s[e] == '.' {
      SecondPoint(w, n - m, e - m);
    } else {
      BadChar(w, e - m);
    }
  }

  lemma LeadingDigitWithPoint(s: string, n: nat, f: nat)
    requires SignLength(s) < n < |s| && s[n] == '.'
    requires n - SignLength(s) == LeadingDigits(s[SignLength(s)..])
    requires f == LeadingDigits(s[n + 1..])
    ensures MatchesLeadingDigit(s[..n + 1 + f])
    ensures forall k :: n + 1 + f < k <= |s| ==> !MatchesLeadingDigit(s[..k])
  {
    var m := SignLength(s);
    var e := n + 1 + f;
    PointNumeral(s, n, e);
    DigitRunAt(s, m);
    DropSignPrefix(s, e);
    assert s[m..e][0] == s[m];
    forall k | e < k <= |s| ensures !MatchesLeadingDigit(s[..k]) {
      DropSignPrefix(s, k);
    }
  }

  /** The numeral made of the digit run that ends at `n`, and nothing longer when no point follows. */
  lemma DigitNumeral(s: string, n: nat)
    requires SignLength(s) < n <= |s|
    requires n - SignLength(s) == LeadingDigits(s[SignLength(s)..])
    ensures DigitsAndPoint(s[SignLength(s)..n])
    ensures !(n < |s| && s[n] == '.') ==> forall k :: n < k <= |s| ==> !DigitsAndPoint(s[SignLength(s)..k])
  {
    var m := SignLength(s);
    DigitRunAt(s, m);
    var u := s[m..n];
    forall i | 0 <= i < |u| ensures IsDigit(u[i]) {
      assert u[i] == s[m + i];
    }
    NoPoint(u);
    if !(n < |s| && s[n] == '.') {
      forall k | n < k <= |s| ensures !DigitsAndPoint(s[m..k]) {
        var w := s[m..k];
        assert w[n - m] == s[n];
        BadChar(w, n - m);
      }
    }
  }

  lemma LeadingDigitWithoutPoint(s: string, n: nat)
    requires SignLength(s) < n <= |s|
    requires n - SignLength(s) == LeadingDigits(s[SignLength(s)..])
    requires !(n < |s| && s[n] == '.')
    ensures MatchesLeadingDigit(s[..n])
    ensures forall k :: n < k <= |s| ==> !MatchesLeadingDigit(s[..k])
  {
    var m := SignLength(s);
    DigitNumeral(s, n);
    DigitRunAt(s, m);
    DropSignPrefix(s, n);
    assert s[m..n][0] == s[m];
    forall k | n < k <= |s| ensures !MatchesLeadingDigit(s[..k]) {
      DropSignPrefix(s, k);
    }
  }

  /** Scans `-?[0-9]*\.?[0-9]+` at the start of `s`: the length of the match, if any. */
  function ScanTrailingDigit(s: string): (r: Option<nat>)
    ensures r.Some? ==> r.value <= |s|
  {
    var m := SignLength(s);
    var d := LeadingDigits(s[m..]);
    var n := m + d;
    if n < |s| && s[n] == '.' && LeadingDigits(s[n + 1..]) > 0 then Some(n + 1 + LeadingDigits(s[n + 1..]))
    else if d > 0 then Some(n)
    else None
  }

  /** The scan finds the longest prefix of the second shape, and None exactly when no prefix has it. */
  lemma ScanTrailingDigitSpec(s: string)
    ensures ScanTrailingDigit(s).Some? ==> MatchesTrailingDigit(s[..ScanTrailingDigit(s).value])
    ensures ScanTrailingDigit(s).Some? ==> forall n :: ScanTrailingDigit(s).value < n <= |s| ==> !MatchesTrailingDigit(s[..n])
    ensures ScanTrailingDigit(s).None? ==> forall n :: 0 <= n <= |s| ==> !MatchesTrailingDigit(s[..n])
  {
    var m := SignLength(s);
    var d := LeadingDigits(s[m..]);
    var n := m + d;
    if n < |s| && s[n] == '.' && LeadingDigits(s[n + 1..]) > 0 {
      TrailingDigitWithPoint(s, n, LeadingDigits(s[n + 1..]));
    } else if d > 0 {
      TrailingDigitWithoutPoint(s, n);
    } else {
      NoTrailingDigit(s);
    }
  }

  lemma TrailingDigitWithPoint(s: string, n: nat, f: nat)
    requires SignLength(s) <= n < |s| && s[n] == '.'
    requires n - SignLength(s) == LeadingDigits(s[SignLength(s)..])
    requires f == LeadingDigits(s[n + 1..]) && f > 0
    ensures MatchesTrailingDigit(s[..n + 1 + f])
    ensures forall k :: n + 1 + f < k <= |s| ==> !MatchesTrailingDigit(s[..k])
  {
    var m := SignLength(s);
    var e := n + 1 + f;
    PointNumeral(s, n, e);
    DigitRunAt(s, n + 1);
    DropSignPrefix(s, e);
    assert s[m..e][e - 1 - m] == s[e - 1];
    forall k | e < k <= |s| ensures !MatchesTrailingDigit(s[..k]) {
      DropSignPrefix(s, k);
    }
  }

  lemma TrailingDigitWithoutPoint(s: string, n: nat)
    requires SignLength(s) < n <= |s|
    requires n - SignLength(s) == LeadingDigits(s[SignLength(s)..])
    requires !(n < |s| && s[n] == '.' && LeadingDigits(s[n + 1..]) > 0)
    ensures MatchesTrailingDigit(s[..n])
    ensures forall k :: n < k <= |s| ==> !MatchesTrailingDigit(s[..k])
  {
    var m := SignLength(s);
    DigitNumeral(s, n);
    DigitRunAt(s, m);
    DropSignPrefix(s, n);
    assert s[m..n][n - 1 - m] == s[n - 1];
    forall k | n < k <= |s| ensures !MatchesTrailingDigit(s[..k]) {
      TrailingDigitLonger(s, n, k);
    }
  }

  /** Past a digit run not followed by `.digit`, no longer prefix has the second shape. */
  lemma TrailingDigitLonger(s: string, n: nat, k: nat)
    requires SignLength(s) < n < k <= |s|
    requires n - SignLength(s) == LeadingDigits(s[SignLength(s)..])
    requires !(s[n] == '.' && LeadingDigits(s[n + 1..]) > 0)
    ensures !MatchesTrailingDigit(s[..k])
  {
    var m := SignLength(s);
    DigitRunAt(s, m);
    DropSignPrefix(s, k);
    var w := s[m..k];
    assert w[n - m] == s[n];
    if s[n] != '.' {
      BadChar(w, n - m);
    } else if k == n + 1 {
      assert w[|w| - 1] == '.';
    } else {
      DigitRunAt(s, n + 1);
      assert w[n + 1 - m] == s[n + 1];
      if s[n + 1] == '.' {
        SecondPoint(w, n - m, n + 1 - m);
      } else {
        BadChar(w, n + 1 - m);
      }
    }
  }

  lemma NoTrailingDigit(s: string)
    requires LeadingDigits(s[SignLength(s)..]) == 0
    requires var m := SignLength(s); !(m < |s| && s[m] == '.' && LeadingDigits(s[m + 1..]) > 0)
    ensures forall n :: 0 <= n <= |s| ==> !MatchesTrailingDigit(s[..n])
  {
    var m := SignLength(s);
    DigitRunAt(s, m);
    forall n | 0 <= n <= |s| ensures !MatchesTrailingDigit(s[..n]) {
      if n <= m {
        SignOnly(s, n);
      } else {
        DropSignPrefix(s, n);
        var w := s[m..n];
        assert w[0] == s[m];
        if s[m] != '.' {
          BadChar(w, 0);
        } else if n == m + 1 {
          assert w[|w| - 1] == '.';
        } else {
          DigitRunAt(s, m + 1);
          assert w[1] == s[m + 1];
          if s[m + 1] == '.' {
            SecondPoint(w, 0, 1);
          } else {
            BadChar(w, 1);
          }
        }
      }
    }
  }

  /** The numeral the extractor takes from the text after the key: shape A, else shape B. */
  function Numeral(s: string): (r: Option<nat>)
    ensures r.Some? ==> r.value <= |s|
  {
    match ScanLeadingDigit(s)
    case Some(n) => Some(n)
    case None => ScanTrailingDigit(s)
  }

  function DigitValue(c: char): nat {
    if IsDigit(c) then (c as int - '0' as int) else 0
  }

  /** The natural number a run of decimal digits denotes. */
  function DigitsValue(ds: string): nat {
    if |ds| == 0 then 0 else DigitsValue(ds[..|ds| - 1]) * 10 + DigitValue(ds[|ds| - 1])
  }

  /** The value of the digits after a decimal point: `0.d1d2...` read as `(d1 + (d2 + ...) / 10) / 10`. */
  function FractionValue(ds: string): real {
    if |ds| == 0 then 0.0 else (DigitValue(ds[0]) as real + FractionValue(ds[1..])) / 10.0
  }

  /** Index of the first decimal point, or the length when there is none. */
  function PointIndex(u: string): (p: nat)
    ensures p <= |u|
  {
    if |u| == 0 || u[0] == '.' then 0 else 1 + PointIndex(u[1..])
  }

  /** The exact decimal value of a numeral of either shape. */
  function NumeralValue(t: string): real {
    var u := DropSign(t);
    var p := PointIndex(u);
    var fraction := if p < |u| then u[p + 1..] else "";
    var magnitude := DigitsValue(u[..p]) as real + FractionValue(fraction);
    if SignLength(t) == 1 then -magnitude else magnitude
  }

  /**
   * `getValue(line, key)` with the default None that every caller passes.
   * Python's `float()` accepts every text either shape matches, so its
   * failure branch cannot be taken.
   */
  function GetValue(line: string, key: string): Option<real> {
    match AfterKey(line, key)
    case None => None
    case Some(rest) => ValueAfter(rest)
  }

  /**
   * The text after the first occurrence of the key, unless the key is
   * missing or its first occurrence lies past the first `;`.
   */
  function AfterKey(line: string, key: string): Option<string> {
    match Find(line, key)
    case None => None
    case Some(k) =>
      var comment := Find(line, ";");
      if comment.Some? && k > comment.value then None
      else Some(line[k + |key|..])
  }

  /** The value of the numeral at the start of the text after the key, if any. */
  function ValueAfter(rest: string): Option<real> {
    match Numeral(rest)
    case None => None
    case Some(n) => Some(NumeralValue(rest[..n]))
  }

  /** The text of the longest numeral the extractor accepts at the start of `rest`. */
  ghost predicate IsExtracted(rest: string, n: nat) {
    n <= |rest| &&
    if exists k :: 0 <= k <= |rest| && MatchesLeadingDigit(rest[..k]) then
      MatchesLeadingDigit(rest[..n]) && forall k :: n < k <= |rest| ==> !MatchesLeadingDigit(rest[..k])
    else
      MatchesTrailingDigit(rest[..n]) && forall k :: n < k <= |rest| ==> !MatchesTrailingDigit(rest[..k])
  }

  ghost predicate HasNumeral(rest: string) {
    exists k :: 0 <= k <= |rest| && (MatchesLeadingDigit(rest[..k]) || MatchesTrailingDigit(rest[..k]))
  }

  /** The extractor returns nothing when the key does not occur in the line. */
  lemma GetValueAbsent(line: string, key: string)
    requires forall j :: 0 <= j <= |line| ==> !OccursAt(line, key, j)
    ensures GetValue(line, key).None?
  {
  }

  /** The extractor returns nothing when the key first occurs after the first `;`. */
  lemma GetValueInComment(line: string, key: string, k: nat, c: nat)
    requires IsFirst(line, key, k) && IsFirst(line, ";", c) && k > c
    ensures GetValue(line, key).None?
  {
    FindFirst(line, key);
    FindFirst(line, ";");
    FirstUnique(line, key, k, Find(line, key).value);
    FirstUnique(line, ";", c, Find(line, ";").value);
  }

  /**
   * Otherwise it returns the value of the longest shape-A numeral right
   * after the key, or failing that of the longest shape-B numeral, and
   * nothing when neither shape matches there.
   */
  lemma GetValueNumeral(line: string, key: string, k: nat)
    requires IsFirst(line, key, k)
    requires forall c: nat :: IsFirst(line, ";", c) ==> k <= c
    ensures var rest := line[k + |key|..];
      if HasNumeral(rest) then
        exists n: nat :: IsExtracted(rest, n) && GetValue(line, key) == Some(NumeralValue(rest[..n]))
      else
        GetValue(line, key).None?
  {
    KeyBeforeComment(line, key, k);
    var rest := line[k + |key|..];
    GetValueAfterKey(line, key, k);
    NumeralExtracted(rest);
    if Numeral(rest).Some? {
      var n := Numeral(rest).value;
      assert 0 <= n <= |rest| && (MatchesLeadingDigit(rest[..n]) || MatchesTrailingDigit(rest[..n]));
    }
  }

  /** Past the key and outside any comment, the extractor reads the numeral right after the key. */
  lemma GetValueAfterKey(line: string, key: string, k: nat)
    requires Find(line, key) == Some(k)
    requires Find(line, ";").Some? ==> k <= Find(line, ";").value
    ensures k + |key| <= |line|
    ensures GetValue(line, key) == ValueAfter(line[k + |key|..])
  {
    AfterKeyFound(line, key, k);
  }

  lemma AfterKeyFound(line: string, key: string, k: nat)
    requires Find(line, key) == Some(k)
    requires Find(line, ";").Some? ==> k <= Find(line, ";").value
    ensures k + |key| <= |line|
    ensures AfterKey(line, key) == Some(line[k + |key|..])
  {
  }

  /** The first occurrence of the key is found, and no comment starts before it. */
  lemma KeyBeforeComment(line: string, key: string, k: nat)
    requires IsFirst(line, key, k)
    requires forall c: nat :: IsFirst(line, ";", c) ==> k <= c
    ensures Find(line, key) == Some(k)
    ensures Find(line, ";").Some? ==> k <= Find(line, ";").value
  {
    FindFirst(line, key);
    FindFirst(line, ";");
    FirstUnique(line, key, k, Find(line, key).value);
  }

  /** The numeral taken is the longest of the first shape, else the longest of the second. */
  lemma NumeralExtracted(rest: string)
    ensures Numeral(rest).Some? ==> IsExtracted(rest, Numeral(rest).value)
    ensures Numeral(rest).Some? ==>
      MatchesLeadingDigit(rest[..Numeral(rest).value]) || MatchesTrailingDigit(rest[..Numeral(rest).value])
    ensures Numeral(rest).None? ==> !HasNumeral(rest)
  {
    ScanLeadingDigitSpec(rest);
    if ScanLeadingDigit(rest).None? {
      ScanTrailingDigitSpec(rest);
    }
  }

  lemma FirstUnique(s: string, key: string, i: nat, j: nat)
    requires IsFirst(s, key, i) && IsFirst(s, key, j)
    ensures i == j
  {
  }

  /** ".3" denotes three tenths. */
  lemma PointThree()
    ensures Numeral(".3") == Some(2)
    ensures NumeralValue(".3") == 0.3
  {
    var s := ".3";
    assert ScanLeadingDigit(s).None? by {
      assert LeadingDigits(s[0..]) == 0;
    }
    assert s[1..] == "3";
    assert LeadingDigits(s[1..]) == 1 by { assert LeadingDigits(s[1..][1..]) == 0; }
    assert DropSign(s) == s;
    assert PointIndex(s) == 0;
    assert s[1..] == "3" && s[..0] == "";
    assert FractionValue("3") == 0.3 by { assert "3"[1..] == ""; }
  }

  /** "-.5" denotes minus one half. */
  lemma MinusPointFive()
    ensures Numeral("-.5") == Some(3)
    ensures NumeralValue("-.5") == -0.5
  {
    var s := "-.5";
    assert SignLength(s) == 1;
    assert ScanLeadingDigit(s).None? by {
      assert LeadingDigits(s[1..]) == 0;
    }
    assert s[2..] == "5";
    assert LeadingDigits(s[2..]) == 1 by { assert LeadingDigits(s[2..][1..]) == 0; }
    var u := DropSign(s);
    assert u == ".5";
    assert PointIndex(u) == 0;
    assert u[1..] == "5" && u[..0] == "";
    assert FractionValue("5") == 0.5 by { assert "5"[1..] == ""; }
  }
}
