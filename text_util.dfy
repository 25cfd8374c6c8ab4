/**
 * String helpers with the semantics of the Python built-ins the backend
 * relies on: `str.lower` (ASCII letters only), `str.isspace`, `str.strip`,
 * `str.split()` without a separator, `in` on strings, `str.startswith`,
 * `sep.join(parts)` and `str(n)` for integers.
 */
module TextUtil {

  /** The number of code-point ranges of the characters Python's
      `str.isspace` accepts. */
  const SpaceRangeCount: nat := 11

  /** The `k`-th range, as its least and greatest character. */
  function SpaceRange(k: nat): (char, char)
    requires k < SpaceRangeCount
  {
    match k
    case 0 => ('\t', '\r')
    case 1 => ('\U{1C}', '\U{1F}')
    case 2 => (' ', ' ')
    case 3 => ('\U{85}', '\U{85}')
    case 4 => ('\U{A0}', '\U{A0}')
    case 5 => ('\U{1680}', '\U{1680}')
    case 6 => ('\U{2000}', '\U{200A}')
    case 7 => ('\U{2028}', '\U{2029}')
    case 8 => ('\U{202F}', '\U{202F}')
    case 9 => ('\U{205F}', '\U{205F}')
    case _ => ('\U{3000}', '\U{3000}')
  }

  /** `c.isspace()`: `c` lies in one of the ranges. */
  predicate IsSpace(c: char)
  {
    exists k: nat :: k < SpaceRangeCount && SpaceRange(k).0 <= c <= SpaceRange(k).1
  }

  /** No ASCII letter is whitespace. */
  lemma LetterIsNotSpace(c: char)
    requires 'A' <= c <= 'Z' || 'a' <= c <= 'z'
    ensures !IsSpace(c)
  {
    forall k: nat | k < SpaceRangeCount ensures !(SpaceRange(k).0 <= c <= SpaceRange(k).1) {
    }
  }

  predicate AllSpace(s: string)
  {
    forall i :: 0 <= i < |s| ==> IsSpace(s[i])
  }

  function LowerChar(c: char): (d: char)
    ensures 'A' <= c <= 'Z' ==> 'a' <= d <= 'z'
    ensures !('A' <= c <= 'Z') ==> d == c
  {
    if 'A' <= c <= 'Z' then (c as int + 32) as char else c
  }

  /** `s.lower()`, restricted to the ASCII upper-case letters. */
  function Lower(s: string): (r: string)
    ensures |r| == |s|
    ensures forall i :: 0 <= i < |s| ==> r[i] == LowerChar(s[i])
  {
    if s == [] then [] else [LowerChar(s[0])] + Lower(s[1..])
  }

  /** Lower-casing never turns a non-space character into a space or back. */
  lemma LowerKeepsSpaces(s: string)
    ensures forall i :: 0 <= i < |s| ==> (IsSpace(Lower(s)[i]) <==> IsSpace(s[i]))
  {
    forall i | 0 <= i < |s| ensures IsSpace(Lower(s)[i]) <==> IsSpace(s[i]) {
      if 'A' <= s[i] <= 'Z' {
        LetterIsNotSpace(s[i]);
        LetterIsNotSpace(Lower(s)[i]);
      }
    }
  }

  /** Python's `p in s` for strings: `p` occurs as a contiguous block of `s`. */
  function Contains(s: string, p: string): bool
    decreases |s|
  {
    |p| <= |s| && (s[..|p|] == p || Contains(s[1..], p))
  }

  ghost predicate OccursAt(s: string, p: string, i: int)
  {
    0 <= i && i + |p| <= |s| && s[i..i + |p|] == p
  }

  /** `Contains` is exactly "there is a position where `p` occurs". */
  lemma {:induction false} ContainsIff(s: string, p: string)
    ensures Contains(s, p) <==> exists i :: OccursAt(s, p, i)
    decreases |s|
  {
    if |p| <= |s| && s[..|p|] != p {
      ContainsIff(s[1..], p);
      if exists i :: OccursAt(s[1..], p, i) {
        var i :| OccursAt(s[1..], p, i);
        assert s[i + 1..i + 1 + |p|] == s[1..][i..i + |p|];
        assert OccursAt(s, p, i + 1);
      }
      if exists i :: OccursAt(s, p, i) {
        var i :| OccursAt(s, p, i);
        assert i != 0;
        assert s[1..][i - 1..i - 1 + |p|] == s[i..i + |p|];
        assert OccursAt(s[1..], p, i - 1);
      }
    } else if |p| <= |s| {
      assert OccursAt(s, p, 0);
    }
  }

  /** The empty string occurs in every string, as in Python. */
  lemma ContainsEmpty(s: string)
    ensures Contains(s, "")
  {
  }

  /** A string that occurs in `s` occurs in every extension of `s`. */
  lemma ContainsInJoin(a: string, s: string, b: string, p: string)
    requires Contains(s, p)
    ensures Contains(a + s + b, p)
  {
    ContainsIff(s, p);
    var i :| OccursAt(s, p, i);
    assert (a + s + b)[|a| + i..|a| + i + |p|] == s[i..i + |p|];
    assert OccursAt(a + s + b, p, |a| + i);
    ContainsIff(a + s + b, p);
  }

  /** `s.startswith(p)`. */
  predicate StartsWith(s: string, p: string)
  {
    |p| <= |s| && s[..|p|] == p
  }

  /** Every character of `s` from index `lo` up to `hi` is whitespace. */
  predicate SpacesBetween(s: string, lo: nat, hi: nat)
    requires lo <= hi <= |s|
  {
    forall k :: lo <= k < hi ==> IsSpace(s[k])
  }

  /** The number of whitespace characters in the run that starts at `lo`. */
  function SpacesFrom(s: string, lo: nat): (n: nat)
    requires lo <= |s|
    ensures lo + n <= |s| && SpacesBetween(s, lo, lo + n)
    ensures lo + n == |s| || !IsSpace(s[lo + n])
    decreases |s| - lo
  {
    if lo < |s| && IsSpace(s[lo]) then 1 + SpacesFrom(s, lo + 1) else 0
  }

  /** The number of whitespace characters in the run that ends just before
      `hi`. */
  function SpacesBefore(s: string, hi: nat): (n: nat)
    requires hi <= |s|
    ensures n <= hi && SpacesBetween(s, hi - n, hi)
    ensures n == hi || !IsSpace(s[hi - n - 1])
  {
    if hi > 0 && IsSpace(s[hi - 1]) then 1 + SpacesBefore(s, hi - 1) else 0
  }

  /** `s.strip()`: the string without its leading and trailing whitespace. */
  function Strip(s: string): (r: string)
  {
    var i := SpacesFrom(s, 0);
    if i == |s| then [] else s[i..|s| - SpacesBefore(s, |s|)]
  }

  /** Where the stripped block sits: `Strip(s)` is `s[i..j]`, and `s` is
      whitespace before `i` and from `j` on. */
  lemma StripBounds(s: string) returns (i: nat, j: nat)
    ensures i <= j <= |s| && Strip(s) == s[i..j]
    ensures SpacesBetween(s, 0, i) && SpacesBetween(s, j, |s|)
    ensures i < j ==> !IsSpace(s[i]) && !IsSpace(s[j - 1])
  {
    i := SpacesFrom(s, 0);
    if i == |s| {
      j := i;
    } else {
      assert !IsSpace(s[i]);
      var n := SpacesBefore(s, |s|);
      j := |s| - n;
      if j <= i {
        assert false;
      }
    }
  }

  /** `s.strip()` is a block of `s` with no whitespace at either end, and
      everything around it in `s` is whitespace. */
  lemma StripSpec(s: string)
    ensures exists i :: 0 <= i && i + |Strip(s)| <= |s| && s[i..i + |Strip(s)|] == Strip(s)
                        && AllSpace(s[..i]) && AllSpace(s[i + |Strip(s)|..])
    ensures Strip(s) == [] || (!IsSpace(Strip(s)[0]) && !IsSpace(Strip(s)[|Strip(s)| - 1]))
  {
    var i, j := StripBounds(s);
    var r := Strip(s);
    assert |r| == j - i && s[i..i + |r|] == r;
    assert AllSpace(s[..i]) by {
      assert forall k :: 0 <= k < i ==> s[..i][k] == s[k];
    }
    assert AllSpace(s[j..]) by {
      assert forall k :: 0 <= k < |s| - j ==> s[j..][k] == s[j + k];
    }
    assert 0 <= i && i + |r| <= |s| && s[i..i + |r|] == r && AllSpace(s[..i]) && AllSpace(s[i + |r|..]);
    if r != [] {
      assert r[0] == s[i] && r[|r| - 1] == s[j - 1];
    }
  }

  /** `not s.strip()` holds exactly for all-whitespace strings. */
  lemma StripEmptyIff(s: string)
    ensures Strip(s) == [] <==> AllSpace(s)
  {
    var i, j := StripBounds(s);
    if i < j {
      assert !IsSpace(s[i]);
    }
  }

  /** `s` has no whitespace character. */
  predicate NoSpace(s: string)
  {
    forall i :: 0 <= i < |s| ==> !IsSpace(s[i])
  }

  /** The longest whitespace-free prefix of `s`. */
  function TakeWord(s: string): (w: string)
    ensures |w| <= |s| && w == s[..|w|]
    ensures NoSpace(w)
    ensures |w| == |s| || IsSpace(s[|w|])
    ensures s != [] && !IsSpace(s[0]) ==> w != []
  {
    if s == [] || IsSpace(s[0]) then [] else [s[0]] + TakeWord(s[1..])
  }

  /** `s.split()`: the maximal runs of non-whitespace characters, in order. */
  function Words(s: string): (ws: seq<string>)
    ensures forall k :: 0 <= k < |ws| ==> ws[k] != [] && NoSpace(ws[k])
    decreases |s|
  {
    if s == [] then []
    else if IsSpace(s[0]) then Words(s[1..])
    else
      var w := TakeWord(s);
      var ws := [w] + Words(s[|w|..]);
      assert forall k :: 0 < k < |ws| ==> ws[k] == Words(s[|w|..])[k - 1];
      ws
  }

  /** `s.split()` is empty exactly when `s` is all whitespace. */
  lemma {:induction false} WordsEmptyIff(s: string)
    ensures Words(s) == [] <==> AllSpace(s)
    decreases |s|
  {
    if s != [] {
      if IsSpace(s[0]) {
        WordsEmptyIff(s[1..]);
        assert AllSpace(s) <==> AllSpace(s[1..]) by {
          assert forall i :: 0 < i < |s| ==> s[1..][i - 1] == s[i];
        }
      }
    }
  }

  /** The non-whitespace characters of `s`, in order. */
  function Squeeze(s: string): (r: string)
    ensures |r| <= |s|
  {
    if s == [] then [] else (if IsSpace(s[0]) then [] else [s[0]]) + Squeeze(s[1..])
  }

  /** `"".join(parts)`. */
  function Concat(parts: seq<string>): string
  {
    if parts == [] then [] else parts[0] + Concat(parts[1..])
  }

  /** `s[i..j]` is a maximal run of non-whitespace characters of `s`: it is
      non-empty, has no whitespace, and is bounded by whitespace or by the
      ends of `s`. */
  ghost predicate MaximalRun(s: string, i: int, j: int)
  {
    && 0 <= i < j <= |s|
    && NoSpace(s[i..j])
    && (i == 0 || IsSpace(s[i - 1]))
    && (j == |s| || IsSpace(s[j]))
  }

  /** `spans` places each of `ws` on a maximal run of `s`, left to right. */
  ghost predicate RunsOf(s: string, ws: seq<string>, spans: seq<(int, int)>)
  {
    && |spans| == |ws|
    && (forall k :: 0 <= k < |ws| ==> MaximalRun(s, spans[k].0, spans[k].1) && ws[k] == s[spans[k].0..spans[k].1])
    && (forall k :: 0 <= k < |ws| - 1 ==> spans[k].1 < spans[k + 1].0)
  }

  /** Squeezing the first word off `s` leaves the squeezed rest. */
  lemma {:induction false} TakeWordSqueeze(s: string)
    ensures Squeeze(s) == TakeWord(s) + Squeeze(s[|TakeWord(s)|..])
    decreases |s|
  {
    if s != [] && !IsSpace(s[0]) {
      var w' := TakeWord(s[1..]);
      TakeWordSqueeze(s[1..]);
      assert TakeWord(s) == [s[0]] + w';
      assert Squeeze(s) == [s[0]] + Squeeze(s[1..]);
      assert s[1..][|w'|..] == s[|w'| + 1..];
    }
  }

  /** A maximal run of a suffix `s[d..]` that starts after a blank (or at
      the start of `s`) is a maximal run of `s`, shifted by `d`. */
  lemma RunShift(s: string, d: int, i: int, j: int)
    requires 0 <= d <= |s| && (d == 0 || IsSpace(s[d - 1]) || i > 0)
    requires MaximalRun(s[d..], i, j)
    ensures MaximalRun(s, i + d, j + d) && s[d..][i..j] == s[i + d..j + d]
  {
    assert s[d..][i..j] == s[i + d..j + d];
    if j < |s[d..]| {
      assert s[d..][j] == s[j + d];
    }
    if i > 0 {
      assert s[d..][i - 1] == s[i + d - 1];
    }
  }

  /** Spans of `s[d..]` moved to positions in `s`. */
  function Shift(spans: seq<(int, int)>, d: int): (r: seq<(int, int)>)
    ensures |r| == |spans|
    ensures forall k :: 0 <= k < |r| ==> r[k] == (spans[k].0 + d, spans[k].1 + d)
  {
    seq(|spans|, k requires 0 <= k < |spans| => (spans[k].0 + d, spans[k].1 + d))
  }

  /** The runs of a suffix that follows a blank are runs of the whole
      string. */
  lemma ShiftRuns(s: string, d: int, ws: seq<string>, spans: seq<(int, int)>)
    requires 0 <= d <= |s| && (d == 0 || IsSpace(s[d - 1]) || (d < |s| && IsSpace(s[d])))
    requires RunsOf(s[d..], ws, spans)
    ensures RunsOf(s, ws, Shift(spans, d))
  {
    forall k | 0 <= k < |ws|
      ensures MaximalRun(s, Shift(spans, d)[k].0, Shift(spans, d)[k].1)
              && ws[k] == s[Shift(spans, d)[k].0..Shift(spans, d)[k].1]
    {
      if spans[k].0 == 0 && d < |s| {
        assert s[d..][spans[k].0..spans[k].1][0] == s[d];
      }
      RunShift(s, d, spans[k].0, spans[k].1);
    }
  }

  /** `s.split()` joined back together is `s` without its whitespace. */
  lemma {:induction false} WordsConcat(s: string)
    ensures Concat(Words(s)) == Squeeze(s)
    decreases |s|
  {
    if s != [] {
      if IsSpace(s[0]) {
        WordsConcat(s[1..]);
      } else {
        var w := TakeWord(s);
        WordsConcat(s[|w|..]);
        TakeWordSqueeze(s);
        assert Words(s)[1..] == Words(s[|w|..]);
      }
    }
  }

  /** A maximal run at the start of `s` followed by the runs of the rest:
      the runs of `s`. */
  lemma RunsCons(s: string, d: int, ws: seq<string>, spans: seq<(int, int)>)
    requires MaximalRun(s, 0, d)
    requires RunsOf(s[d..], ws, spans)
    ensures RunsOf(s, [s[..d]] + ws, [(0, d)] + Shift(spans, d))
  {
    var sh := Shift(spans, d);
    var ws' := [s[..d]] + ws;
    var spans' := [(0, d)] + sh;
    if spans != [] {
      var rest := s[d..];
      assert MaximalRun(rest, spans[0].0, spans[0].1);
      ShiftRuns(s, d, ws, spans);
      assert sh[0].0 > d by {
        assert rest[0] == s[d];
        assert rest[spans[0].0..spans[0].1][0] == rest[spans[0].0];
      }
    }
    assert s[0..d] == s[..d];
    assert forall k :: 0 < k < |ws'| ==> spans'[k] == sh[k - 1] && ws'[k] == ws[k - 1];
  }

  /** Each word of `s.split()` sits on its own maximal non-whitespace run of
      `s`, after the previous word's run. */
  lemma {:induction false} WordsRuns(s: string)
    ensures exists spans :: RunsOf(s, Words(s), spans)
    decreases |s|
  {
    if s == [] {
      assert Words(s) == [];
      assert RunsOf(s, [], []);
    } else if IsSpace(s[0]) {
      WordsRuns(s[1..]);
      var spans: seq<(int, int)> :| RunsOf(s[1..], Words(s[1..]), spans);
      ShiftRuns(s, 1, Words(s[1..]), spans);
      assert RunsOf(s, Words(s), Shift(spans, 1));
    } else {
      var w := TakeWord(s);
      WordsRuns(s[|w|..]);
      var spans: seq<(int, int)> :| RunsOf(s[|w|..], Words(s[|w|..]), spans);
      assert s[0..|w|] == w;
      RunsCons(s, |w|, Words(s[|w|..]), spans);
      assert Words(s) == [s[..|w|]] + Words(s[|w|..]);
    }
  }

  /** `s.split()` is the list of maximal non-whitespace runs of `s`, left
      to right: together they are `s` without its whitespace, and each sits
      on its own run, after the previous one. */
  lemma WordsSpec(s: string)
    ensures Concat(Words(s)) == Squeeze(s)
    ensures exists spans :: RunsOf(s, Words(s), spans)
    ensures forall k :: 0 <= k < |Words(s)| ==> Words(s)[k] != [] && NoSpace(Words(s)[k])
  {
    WordsConcat(s);
    WordsRuns(s);
  }

  /** `sep.join(parts)`. */
  function Join(sep: string, parts: seq<string>): string
  {
    if parts == [] then ""
    else if |parts| == 1 then parts[0]
    else parts[0] + sep + Join(sep, parts[1..])
  }

  function DigitChar(d: int): char
    requires 0 <= d < 10
  {
    "0123456789"[d]
  }

  /** The value of a string of decimal digits. */
  function DecimalValue(r: string): nat
    requires forall i :: 0 <= i < |r| ==> '0' <= r[i] <= '9'
  {
    if r == [] then 0
    else 10 * DecimalValue(r[..|r| - 1]) + (r[|r| - 1] as int - '0' as int)
  }

  /** The decimal digits of `n`, without leading zeros. */
  function NatToString(n: nat): (r: string)
    ensures r != []
    ensures forall i :: 0 <= i < |r| ==> '0' <= r[i] <= '9'
    ensures r[0] == '0' ==> r == "0"
    ensures DecimalValue(r) == n
  {
    if n < 10 then [DigitChar(n)] else NatToString(n / 10) + [DigitChar(n % 10)]
  }

  /** `str(n)` for a Python integer. */
  function IntToString(n: int): (r: string)
    ensures r != []
    ensures (r[0] == '-') <==> n < 0
    ensures n >= 0 ==> (forall i :: 0 <= i < |r| ==> '0' <= r[i] <= '9')
                       && (r[0] == '0' ==> r == "0") && DecimalValue(r) == n
    ensures n < 0 ==> r == "-" + NatToString(-n)
  {
    if n < 0 then "-" + NatToString(-n) else NatToString(n)
  }
}
