/** The handful of Python `str` operations the key rewriting relies on,
    written out over `seq<char>`: `t in s`, `s.endswith(t)`,
    `s.replace(pat, rep)`, `s.split(sep)`, `str(n)` and `int(s)`. */
module Text {
  import opened Results

  /** `t` occurs in `s` starting at index `j`. */
  predicate MatchAt(s: string, t: string, j: int)
  {
    0 <= j && j + |t| <= |s| && s[j..j + |t|] == t
  }

  /** Python `t in s`. */
  predicate Contains(s: string, t: string)
  {
    exists j :: 0 <= j <= |s| - |t| && MatchAt(s, t, j)
  }

  /** Python `s.endswith(t)`. */
  predicate EndsWith(s: string, t: string)
  {
    |t| <= |s| && s[|s| - |t|..] == t
  }

  /** Python `s.replace(pat, rep)`: every non-overlapping occurrence of `pat`,
      scanning left to right, is replaced by `rep`. */
  function Replace(s: string, pat: string, rep: string): (r: string)
    requires |pat| > 0
    decreases |s|
  {
    if |s| < |pat| then s
    else if s[..|pat|] == pat then rep + Replace(s[|pat|..], pat, rep)
    else [s[0]] + Replace(s[1..], pat, rep)
  }

  lemma MatchShift(s: string, t: string, j: int)
    requires |s| > 0 && j >= 0
    ensures MatchAt(s[1..], t, j) <==> MatchAt(s, t, j + 1)
  {
    if 0 <= j && j + |t| <= |s| - 1 {
      assert s[1..][j..j + |t|] == s[j + 1..j + 1 + |t|];
    }
  }

  /** Replacing a pattern that does not occur changes nothing. */
  lemma {:induction false} ReplaceAbsent(s: string, pat: string, rep: string)
    requires |pat| > 0
    requires !Contains(s, pat)
    ensures Replace(s, pat, rep) == s
    decreases |s|
  {
    if |s| >= |pat| {
      assert !MatchAt(s, pat, 0);
      assert !Contains(s[1..], pat) by {
        forall j | 0 <= j <= |s[1..]| - |pat|
          ensures !MatchAt(s[1..], pat, j)
        {
          MatchShift(s, pat, j);
        }
      }
      ReplaceAbsent(s[1..], pat, rep);
      assert s == [s[0]] + s[1..];
    }
  }

  /** A prefix in which no occurrence of the pattern starts is copied as it is. */
  lemma {:induction false} ReplaceSkip(s: string, pat: string, rep: string, k: nat)
    requires |pat| > 0 && k <= |s|
    requires forall j :: 0 <= j < k ==> !MatchAt(s, pat, j)
    ensures Replace(s, pat, rep) == s[..k] + Replace(s[k..], pat, rep)
    decreases k
  {
    if k == 0 {
      assert s[..0] == [] && s[0..] == s;
    } else if |s| < |pat| {
      assert s[..k] + s[k..] == s;
    } else {
      assert !MatchAt(s, pat, 0);
      forall j | 0 <= j < k - 1
        ensures !MatchAt(s[1..], pat, j)
      {
        MatchShift(s, pat, j);
      }
      ReplaceSkip(s[1..], pat, rep, k - 1);
      assert s[1..][..k - 1] == s[1..k];
      assert s[1..][k - 1..] == s[k..];
      assert [s[0]] + s[1..k] == s[..k];
    }
  }

  /** When the only occurrence of `pat` that the left-to-right scan meets is the
      marked one, `replace` substitutes exactly that one. */
  lemma ReplaceOnce(a: string, pat: string, b: string, rep: string)
    requires |pat| > 0
    requires forall j :: 0 <= j < |a| ==> !MatchAt(a + pat + b, pat, j)
    requires !Contains(b, pat)
    ensures Replace(a + pat + b, pat, rep) == a + rep + b
  {
    var s := a + pat + b;
    ReplaceSkip(s, pat, rep, |a|);
    assert s[..|a|] == a;
    var t := s[|a|..];
    assert t == pat + b;
    assert t[..|pat|] == pat;
    assert t[|pat|..] == b;
    ReplaceAbsent(b, pat, rep);
  }

  /** Python `s.split(sep)` for a one-character separator. */
  function SplitOn(s: string, sep: char): (r: seq<string>)
    ensures |r| >= 1
    ensures forall i :: 0 <= i < |r| ==> sep !in r[i]
    decreases |s|
  {
    if |s| == 0 then [""]
    else
      var rest := SplitOn(s[1..], sep);
      if s[0] == sep then [""] + rest
      else [[s[0]] + rest[0]] + rest[1..]
  }

  /** Python `sep.join(parts)`. */
  function JoinWith(parts: seq<string>, sep: char): string
    requires |parts| >= 1
    decreases |parts|
  {
    if |parts| == 1 then parts[0] else parts[0] + [sep] + JoinWith(parts[1..], sep)
  }

  /** `sep.join(s.split(sep)) == s`: splitting loses nothing. */
  lemma {:induction false} JoinSplit(s: string, sep: char)
    ensures JoinWith(SplitOn(s, sep), sep) == s
    decreases |s|
  {
    if |s| > 0 {
      var rest := SplitOn(s[1..], sep);
      JoinSplit(s[1..], sep);
      if s[0] == sep {
        assert SplitOn(s, sep)[1..] == rest;
      } else {
        var r := SplitOn(s, sep);
        assert r[0] == [s[0]] + rest[0];
        if |rest| > 1 {
          assert r[1..] == rest[1..];
          assert JoinWith(rest, sep) == rest[0] + [sep] + JoinWith(rest[1..], sep);
        }
      }
      assert s == [s[0]] + s[1..];
    }
  }

  /** A field before the first separator is split off intact. */
  lemma {:induction false} SplitOnField(p: string, sep: char, q: string)
    requires sep !in p
    ensures SplitOn(p + [sep] + q, sep) == [p] + SplitOn(q, sep)
    decreases |p|
  {
    var s := p + [sep] + q;
    if |p| == 0 {
      assert s[1..] == q;
    } else {
      assert s[1..] == p[1..] + [sep] + q;
      SplitOnField(p[1..], sep, q);
      assert [p[0]] + p[1..] == p;
    }
  }

  predicate IsDigit(ch: char)
  {
    '0' <= ch <= '9'
  }

  predicate AllDigits(s: string)
  {
    forall i :: 0 <= i < |s| ==> IsDigit(s[i])
  }

  function DigitChar(d: nat): (ch: char)
    requires d < 10
    ensures IsDigit(ch)
  {
    ('0' as int + d) as char
  }

  /** Decimal digits of `n`, no leading zeros: Python `str(n)` for n >= 0. */
  function NatStr(n: nat): (r: string)
    ensures |r| >= 1 && AllDigits(r)
    decreases n
  {
    if n < 10 then [DigitChar(n)] else NatStr(n / 10) + [DigitChar(n % 10)]
  }

  /** Python `str(n)` (the f-string `{n}`) for an int. */
  function IntStr(n: int): (r: string)
    ensures |r| >= 1 && '.' !in r
  {
    if n < 0 then "-" + NatStr(-n) else NatStr(n)
  }

  /** Value of a string of decimal digits, leading zeros allowed. */
  function DigitsValue(s: string): nat
    requires AllDigits(s)
    decreases |s|
  {
    if |s| == 0 then 0 else DigitsValue(s[..|s| - 1]) * 10 + (s[|s| - 1] as int - '0' as int)
  }

  /** Python `int(s)` on an optional sign followed by decimal digits; any other
      string raises ValueError, modelled as `None`. */
  function ParseInt(s: string): Option<int>
  {
    if |s| > 0 && (s[0] == '-' || s[0] == '+') then
      var d := s[1..];
      if |d| > 0 && AllDigits(d) then
        Some(if s[0] == '-' then -(DigitsValue(d) as int) else DigitsValue(d))
      else None
    else if |s| > 0 && AllDigits(s) then Some(DigitsValue(s))
    else None
  }

  lemma {:induction false} DigitsValueNatStr(n: nat)
    ensures DigitsValue(NatStr(n)) == n
    decreases n
  {
    if n >= 10 {
      var s := NatStr(n);
      DigitsValueNatStr(n / 10);
      assert s[..|s| - 1] == NatStr(n / 10);
    }
  }

  /** `int(str(n)) == n`: the layer number printed into a key reads back. */
  lemma ParseIntStr(n: int)
    ensures ParseInt(IntStr(n)) == Some(n)
  {
    var s := IntStr(n);
    if n < 0 {
      DigitsValueNatStr(-n);
      assert s[0] == '-';
      assert s[1..] == NatStr(-n);
    } else {
      DigitsValueNatStr(n);
      assert s == NatStr(n);
      assert IsDigit(s[0]);
    }
  }
}
