/**
  String helpers shared by the modules that model the dashboard and the
  worker: searching for a character, `str.join`, `str.split("\n")`,
  ASCII upper-casing and substring containment.
 */
module Text {
  import opened Wrappers

  /** `sub` occurs in `s` as a contiguous substring (Python's `sub in s`). */
  ghost predicate Contains(s: string, sub: string)
  {
    exists i :: 0 <= i <= |s| && sub <= s[i..]
  }

  lemma ContainsInfix(a: string, b: string, c: string)
    ensures Contains(a + b + c, b)
  {
    assert b <= (a + b + c)[|a|..];
  }

  /** Index of the first occurrence of `c` in `s`. */
  function FirstIndexOf(s: string, c: char): (r: Option<nat>)
    ensures r.None? <==> c !in s
    ensures r.Some? ==> r.value < |s| && s[r.value] == c
    ensures r.Some? ==> forall k :: 0 <= k < r.value ==> s[k] != c
  {
    if s == [] then None
    else if s[0] == c then Some(0)
    else match FirstIndexOf(s[1..], c)
      case None => None
      case Some(i) => Some(i + 1)
  }

  /** Index of the last occurrence of `c` in `s`. */
  function LastIndexOf(s: string, c: char): (r: Option<nat>)
    ensures r.None? <==> c !in s
    ensures r.Some? ==> r.value < |s| && s[r.value] == c
    ensures r.Some? ==> forall k :: r.value < k < |s| ==> s[k] != c
  {
    if s == [] then None
    else if s[|s| - 1] == c then Some(|s| - 1)
    else LastIndexOf(s[..|s| - 1], c)
  }

  /** The text before the first `c` (all of `s` when there is none). */
  function BeforeFirst(s: string, c: char): string
  {
    if s == [] || s[0] == c then [] else [s[0]] + BeforeFirst(s[1..], c)
  }

  lemma {:induction false} BeforeFirstOf(a: string, c: char, b: string)
    requires c !in a
    ensures BeforeFirst(a + [c] + b, c) == a
  {
    if a != [] {
      assert (a + [c] + b)[1..] == a[1..] + [c] + b;
      BeforeFirstOf(a[1..], c, b);
    }
  }

  /** Number of occurrences of `c` in `s`. */
  function CountChar(s: string, c: char): nat
  {
    if s == [] then 0 else (if s[0] == c then 1 else 0) + CountChar(s[1..], c)
  }

  lemma {:induction false} CountCharAppend(a: string, b: string, c: char)
    ensures CountChar(a + b, c) == CountChar(a, c) + CountChar(b, c)
  {
    if a == [] {
      assert a + b == b;
    } else {
      assert (a + b)[1..] == a[1..] + b;
      CountCharAppend(a[1..], b, c);
    }
  }

  lemma {:induction false} CountCharAbsent(s: string, c: char)
    requires c !in s
    ensures CountChar(s, c) == 0
  {
    if s != [] {
      CountCharAbsent(s[1..], c);
    }
  }

  /** Occurrences of `c` summed over every string of `xs`. */
  function CountCharAll(xs: seq<string>, c: char): nat
  {
    if xs == [] then 0 else CountChar(xs[0], c) + CountCharAll(xs[1..], c)
  }

  /** Python's `sep.join(xs)`. */
  function Join(xs: seq<string>, sep: string): string
  {
    if xs == [] then ""
    else if |xs| == 1 then xs[0]
    else xs[0] + sep + Join(xs[1..], sep)
  }

  /** Every element of `xs` occurs in `sep.join(xs)`, at the place it was put. */
  lemma {:induction false} JoinHasElement(xs: seq<string>, sep: string, k: nat)
    requires k < |xs|
    ensures exists before, after :: Join(xs, sep) == before + xs[k] + after
  {
    if k == 0 {
      if |xs| == 1 {
        assert Join(xs, sep) == "" + xs[0] + "";
      } else {
        assert Join(xs, sep) == "" + xs[0] + (sep + Join(xs[1..], sep));
      }
    } else {
      JoinHasElement(xs[1..], sep, k - 1);
      var before, after :| Join(xs[1..], sep) == before + xs[1..][k - 1] + after;
      assert Join(xs, sep) == (xs[0] + sep + before) + xs[k] + after;
    }
  }

  lemma JoinContainsElement(xs: seq<string>, sep: string, k: nat)
    requires k < |xs|
    ensures Contains(Join(xs, sep), xs[k])
  {
    JoinHasElement(xs, sep, k);
    var before, after :| Join(xs, sep) == before + xs[k] + after;
    ContainsInfix(before, xs[k], after);
  }

  /**
    Counting a character of the separator in a join: each element
    contributes its own occurrences and each of the |xs| - 1 separators
    contributes one.
   */
  lemma {:induction false} JoinCountChar(xs: seq<string>, sep: string, c: char)
    requires xs != []
    requires CountChar(sep, c) == 1
    ensures CountChar(Join(xs, sep), c) == CountCharAll(xs, c) + |xs| - 1
  {
    if |xs| == 1 {
      assert CountCharAll(xs[1..], c) == 0;
    } else {
      JoinCountChar(xs[1..], sep, c);
      CountCharAppend(xs[0] + sep, Join(xs[1..], sep), c);
      CountCharAppend(xs[0], sep, c);
    }
  }

  /**
    Python's `s.split("\n")`: the pieces between newlines, so that a string
    with k newlines has k + 1 lines.
   */
  function Lines(s: string): (ls: seq<string>)
    ensures |ls| == CountChar(s, '\n') + 1
  {
    if s == [] then [""]
    else
      var rest := Lines(s[1..]);
      if s[0] == '\n' then [""] + rest
      else [[s[0]] + rest[0]] + rest[1..]
  }

  lemma {:induction false} LinesOfLine(a: string)
    requires '\n' !in a
    ensures Lines(a) == [a]
  {
    if a != [] {
      LinesOfLine(a[1..]);
      assert [a[0]] + a[1..] == a;
    }
  }

  lemma {:induction false} LinesCons(a: string, b: string)
    requires '\n' !in a
    ensures Lines(a + "\n" + b) == [a] + Lines(b)
  {
    if a == [] {
      assert (a + "\n" + b)[1..] == b;
    } else {
      assert (a + "\n" + b)[1..] == a[1..] + "\n" + b;
      LinesCons(a[1..], b);
      assert [a[0]] + a[1..] == a;
    }
  }

  /** Splitting a newline join of newline-free lines gives the lines back. */
  lemma {:induction false} LinesOfJoin(ls: seq<string>)
    requires ls != []
    requires forall i :: 0 <= i < |ls| ==> '\n' !in ls[i]
    ensures Lines(Join(ls, "\n")) == ls
  {
    if |ls| == 1 {
      LinesOfLine(ls[0]);
    } else {
      LinesOfJoin(ls[1..]);
      LinesCons(ls[0], Join(ls[1..], "\n"));
    }
  }

  /** ASCII upper-casing of one character. */
  function UpperChar(c: char): char
  {
    if 'a' <= c <= 'z' then (c as int - 32) as char else c
  }

  /** `s.upper()` restricted to the ASCII letters. */
  function Upper(s: string): (u: string)
    ensures |u| == |s|
  {
    if s == [] then [] else [UpperChar(s[0])] + Upper(s[1..])
  }

  lemma {:induction false} UpperAt(s: string, i: nat)
    requires i < |s|
    ensures Upper(s)[i] == UpperChar(s[i])
  {
    if i > 0 {
      UpperAt(s[1..], i - 1);
    }
  }

  /** The number a string of decimal digits spells, most significant digit first. */
  ghost function DigitsValue(s: string): int
  {
    if s == [] then 0 else 10 * DigitsValue(s[..|s| - 1]) + (s[|s| - 1] as int - '0' as int)
  }

  /** Decimal digits of a natural number, as `str(n)` writes them: no leading zero. */
  function Decimal(n: nat): (r: string)
    ensures r != []
    ensures forall i :: 0 <= i < |r| ==> '0' <= r[i] <= '9'
    ensures DigitsValue(r) == n
    ensures |r| > 1 ==> r[0] != '0'
  {
    if n < 10 then [(n + '0' as int) as char]
    else Decimal(n / 10) + [(n % 10 + '0' as int) as char]
  }

  /** The ordinals of a numbered list of ten: one digit each up to nine, then `10`. */
  lemma DecimalOrdinals()
    ensures forall k :: 1 <= k <= 9 ==> Decimal(k) == [('0' as int + k) as char]
    ensures Decimal(10) == "10"
  {
  }
}
