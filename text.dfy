/** Option values for fields that may be missing from a g-code line. */
module Optional {
  datatype Option<+T> = None | Some(value: T)
}

/**
 * The string operations the post-processor relies on: substring search
 * (`key in line`, `line.find(key)`), first index in a list (`list.index`),
 * and splitting and joining on line terminators (`split("\n")`,
 * `"\n".join(...)`).
 */
module Text {
  import opened Optional

  /** `key` occurs in `s` at index `i`. */
  predicate OccursAt(s: string, key: string, i: nat) {
    i + |key| <= |s| && s[i..i + |key|] == key
  }

  /** `i` is the first index at which `key` occurs in `s`. */
  ghost predicate IsFirst(s: string, key: string, i: nat) {
    OccursAt(s, key, i) && forall j :: 0 <= j < i ==> !OccursAt(s, key, j)
  }

  function FindFrom(s: string, key: string, i: nat): (r: Option<nat>)
    requires i <= |s|
    ensures r.Some? ==> i <= r.value && OccursAt(s, key, r.value)
    decreases |s| - i
  {
    if OccursAt(s, key, i) then Some(i)
    else if i == |s| then None
    else FindFrom(s, key, i + 1)
  }

  /** The search from `i` stops at the first occurrence, and fails only when there is none. */
  lemma {:induction false} FindFromFirst(s: string, key: string, i: nat)
    requires i <= |s|
    ensures var r := FindFrom(s, key, i);
      r.Some? ==> forall j :: i <= j < r.value ==> !OccursAt(s, key, j)
    ensures FindFrom(s, key, i).None? ==> forall j :: i <= j <= |s| ==> !OccursAt(s, key, j)
    decreases |s| - i
  {
    if !OccursAt(s, key, i) && i < |s| {
      FindFromFirst(s, key, i + 1);
    }
  }

  /** Python's `s.find(key)`: the first occurrence, or None for -1. */
  function Find(s: string, key: string): (r: Option<nat>)
    ensures r.Some? ==> OccursAt(s, key, r.value)
  {
    FindFrom(s, key, 0)
  }

  lemma FindFirst(s: string, key: string)
    ensures Find(s, key).Some? ==> IsFirst(s, key, Find(s, key).value)
    ensures Find(s, key).None? ==> forall j :: 0 <= j <= |s| ==> !OccursAt(s, key, j)
  {
    FindFromFirst(s, key, 0);
  }

  /** Python's `key in s`. */
  predicate Contains(s: string, key: string) {
    Find(s, key).Some?
  }

  /** Python's `list.index(x)`: the first position holding `x`. */
  function IndexOf<T(==)>(xs: seq<T>, x: T): (r: nat)
    requires x in xs
    ensures r < |xs| && xs[r] == x
  {
    if xs[0] == x then 0 else 1 + IndexOf(xs[1..], x)
  }

  /** No earlier position holds `x`. */
  lemma {:induction false} IndexOfFirst<T>(xs: seq<T>, x: T)
    requires x in xs
    ensures forall j :: 0 <= j < IndexOf(xs, x) ==> xs[j] != x
  {
    if xs[0] != x {
      IndexOfFirst(xs[1..], x);
    }
  }

  /** Python's `s.split("\n")`: the pieces between terminators, always at least one. */
  function Split(s: string): (r: seq<string>)
    ensures |r| >= 1
  {
    if |s| == 0 then [""]
    else
      var rest := Split(s[1..]);
      if s[0] == '\n' then [""] + rest
      else [[s[0]] + rest[0]] + rest[1..]
  }

  /** No piece holds a terminator. */
  lemma {:induction false} SplitPieces(s: string)
    ensures forall i :: 0 <= i < |Split(s)| ==> '\n' !in Split(s)[i]
  {
    if |s| > 0 {
      SplitPieces(s[1..]);
      var rest := Split(s[1..]);
      if s[0] != '\n' {
        assert '\n' !in rest[0];
        assert '\n' !in [s[0]] + rest[0];
      }
    }
  }

  /** Round trip: joining the pieces gives the text back. */
  lemma {:induction false} JoinSplit(s: string)
    ensures Join(Split(s)) == s
  {
    if |s| > 0 {
      JoinSplit(s[1..]);
      var rest := Split(s[1..]);
      if s[0] == '\n' {
        JoinCons("", rest);
        assert "" + "\n" + Join(rest) == s;
      } else {
        var head := [s[0]] + rest[0];
        JoinCons(head, rest[1..]);
        JoinCons(rest[0], rest[1..]);
        assert rest == [rest[0]] + rest[1..];
        assert [s[0]] + Join(rest) == s;
      }
    }
  }

  /** Python's `"\n".join(lines)`. */
  function Join(lines: seq<string>): string {
    if |lines| == 0 then ""
    else if |lines| == 1 then lines[0]
    else lines[0] + "\n" + Join(lines[1..])
  }

  lemma JoinCons(head: string, tail: seq<string>)
    ensures Join([head] + tail) == if tail == [] then head else head + "\n" + Join(tail)
  {
    assert ([head] + tail)[1..] == tail;
  }

  /** The text built by appending each line followed by a terminator. */
  function Lines(block: seq<string>): string {
    if block == [] then "" else block[0] + "\n" + Lines(block[1..])
  }

  /** Splitting around a terminator splits each side separately. */
  lemma {:induction false} SplitAround(a: string, b: string)
    ensures Split(a + "\n" + b) == Split(a) + Split(b)
    decreases |a|
  {
    var s := a + "\n" + b;
    if |a| == 0 {
      assert s[0] == '\n' && s[1..] == b;
    } else {
      var t := a[1..];
      assert s[0] == a[0] && s[1..] == t + "\n" + b;
      SplitAround(t, b);
      var left, right := Split(t), Split(b);
      if a[0] == '\n' {
        ConsAssoc("", left, right);
      } else {
        HeadTail(left, right);
        ConsAssoc([a[0]] + left[0], left[1..], right);
      }
    }
  }

  lemma ConsAssoc<T>(h: T, l: seq<T>, r: seq<T>)
    ensures [h] + (l + r) == ([h] + l) + r
  {
  }

  lemma HeadTail<T>(l: seq<T>, r: seq<T>)
    requires |l| >= 1
    ensures (l + r)[0] == l[0] && (l + r)[1..] == l[1..] + r
  {
  }

  /** A piece without terminators splits into itself. */
  lemma {:induction false} SplitPlain(a: string)
    requires '\n' !in a
    ensures Split(a) == [a]
    decreases |a|
  {
    if |a| > 0 {
      SplitPlain(a[1..]);
      assert [a[0]] + a[1..] == a;
    }
  }

  /** Round trip: splitting joined lines gives the lines back. */
  lemma {:induction false} SplitJoin(lines: seq<string>)
    requires |lines| >= 1
    requires forall i :: 0 <= i < |lines| ==> '\n' !in lines[i]
    ensures Split(Join(lines)) == lines
    decreases |lines|
  {
    SplitPlain(lines[0]);
    if |lines| > 1 {
      SplitJoin(lines[1..]);
      SplitAround(lines[0], Join(lines[1..]));
      assert lines == [lines[0]] + lines[1..];
    }
  }

  /** Text built line by line splits into those lines, then whatever follows. */
  lemma {:induction false} SplitLines(block: seq<string>, rest: string)
    requires forall i :: 0 <= i < |block| ==> '\n' !in block[i]
    ensures Split(Lines(block) + rest) == block + Split(rest)
    decreases |block|
  {
    if block == [] {
      assert Lines(block) + rest == rest;
    } else {
      var head, more := block[0], block[1..];
      var tail := Lines(more) + rest;
      calc {
        Split(Lines(block) + rest);
        { assert Lines(block) + rest == head + "\n" + tail; }
        Split(head + "\n" + tail);
        { SplitAround(head, tail); }
        Split(head) + Split(tail);
        { SplitPlain(head); SplitLines(more, rest); }
        [head] + (more + Split(rest));
        { assert block == [head] + more; }
        block + Split(rest);
      }
    }
  }
}
