/**
 * The string operations the components rely on, restricted to ASCII: JavaScript's
 * `trim`, `toLowerCase`, `includes`, `split(',')`, the `\s` character class and
 * number-to-decimal conversion inside template literals.
 */
module Strings {

  /** The ASCII members of JavaScript's `\s`: space, and tab, LF, VT, FF, CR (codes 9 to 13). */
  predicate IsSpace(c: char)
  {
    c == ' ' || '\t' <= c <= '\r'
  }

  /** Every character is white space; JavaScript's `!s.trim()` (the empty string included). */
  predicate IsBlank(s: string)
  {
    forall i :: 0 <= i < |s| ==> IsSpace(s[i])
  }

  predicate HasNoSpace(s: string)
  {
    forall i :: 0 <= i < |s| ==> !IsSpace(s[i])
  }

  /** `s` with its leading white space removed. */
  function TrimStart(s: string): (r: string)
    ensures |r| <= |s| && r == s[|s| - |r|..]
    ensures forall i :: 0 <= i < |s| - |r| ==> IsSpace(s[i])
    ensures r != [] ==> !IsSpace(r[0])
  {
    if s != [] && IsSpace(s[0]) then TrimStart(s[1..]) else s
  }

  /** `s` with its trailing white space removed. */
  function TrimEnd(s: string): (r: string)
    ensures |r| <= |s| && r == s[..|r|]
    ensures forall i :: |r| <= i < |s| ==> IsSpace(s[i])
    ensures r != [] ==> !IsSpace(r[|r| - 1])
  {
    if s != [] && IsSpace(s[|s| - 1]) then TrimEnd(s[..|s| - 1]) else s
  }

  /** JavaScript's `s.trim()` over the ASCII white-space set. */
  function Trim(s: string): (r: string)
    ensures |r| <= |s|
    ensures r != [] ==> !IsSpace(r[0]) && !IsSpace(r[|r| - 1])
    ensures r == [] <==> IsBlank(s)
  {
    TrimEnd(TrimStart(s))
  }

  /** `trim` keeps the slice between a blank prefix and a blank suffix of its input. */
  lemma TrimIsSlice(s: string)
    ensures exists i, j :: 0 <= i <= j <= |s| && Trim(s) == s[i..j] && IsBlank(s[..i]) && IsBlank(s[j..])
  {
    var a := TrimStart(s);
    var i := |s| - |a|;
    var j := i + |TrimEnd(a)|;
    assert Trim(s) == s[i..j] by {
      assert a == s[i..];
    }
    assert IsBlank(s[..i]);
    assert IsBlank(s[j..]) by {
      assert forall k :: 0 <= k < |s| - j ==> s[j..][k] == a[j - i + k];
    }
  }

  /** A string with nothing to strip is its own trim. */
  lemma TrimOfTrimmed(s: string)
    requires s == [] || (!IsSpace(s[0]) && !IsSpace(s[|s| - 1]))
    ensures Trim(s) == s
  {
  }

  lemma {:induction false} TrimIdempotent(s: string)
    ensures Trim(Trim(s)) == Trim(s)
  {
    TrimOfTrimmed(Trim(s));
  }

  // ---------------------------------------------------------------------------
  // Lower case

  /** ASCII `toLowerCase` on one character: 'A'..'Z' become 'a'..'z', all else is kept. */
  function LowerChar(c: char): (r: char)
    ensures 'A' <= c <= 'Z' ==> 'a' <= r <= 'z' && r as int - c as int == 32
    ensures !('A' <= c <= 'Z') ==> r == c
  {
    if 'A' <= c <= 'Z' then (c as int + 32) as char else c
  }

  /** ASCII `s.toLowerCase()`. */
  function ToLower(s: string): (r: string)
    ensures |r| == |s|
    ensures forall i :: 0 <= i < |s| ==> r[i] == LowerChar(s[i])
  {
    seq(|s|, i requires 0 <= i < |s| => LowerChar(s[i]))
  }

  predicate IsLower(s: string)
  {
    forall i :: 0 <= i < |s| ==> LowerChar(s[i]) == s[i]
  }

  lemma ToLowerIdempotent(s: string)
    ensures ToLower(ToLower(s)) == ToLower(s)
  {
  }

  lemma ToLowerOfLower(s: string)
    requires IsLower(s)
    ensures ToLower(s) == s
  {
  }

  /** Lower-casing maps white space to white space and nothing else to it. */
  lemma LowerCharSpace(c: char)
    ensures IsSpace(LowerChar(c)) <==> IsSpace(c)
  {
  }

  // ---------------------------------------------------------------------------
  // Substrings

  /** `t` occurs in `s` starting at index `i`. */
  ghost predicate OccursAt(s: string, t: string, i: int)
  {
    0 <= i && i + |t| <= |s| && s[i..i + |t|] == t
  }

  /** JavaScript's `s.includes(t)`. */
  predicate Contains(s: string, t: string)
    decreases |s|
  {
    |t| <= |s| && (s[..|t|] == t || Contains(s[1..], t))
  }

  /** `Contains` is exactly "occurs at some index". */
  lemma {:induction false} ContainsIff(s: string, t: string)
    ensures Contains(s, t) <==> exists i :: OccursAt(s, t, i)
    decreases |s|
  {
    if |t| <= |s| {
      if s[..|t|] == t {
        assert OccursAt(s, t, 0);
      } else {
        if |s| > 0 {
          ContainsIff(s[1..], t);
          if Contains(s[1..], t) {
            var i :| OccursAt(s[1..], t, i);
            assert s[i + 1..i + 1 + |t|] == s[1..][i..i + |t|];
            assert OccursAt(s, t, i + 1);
          }
        }
        if exists i :: OccursAt(s, t, i) {
          var i :| OccursAt(s, t, i);
          assert i != 0;
          assert s[1..][i - 1..i - 1 + |t|] == s[i..i + |t|];
          assert OccursAt(s[1..], t, i - 1);
        }
      }
    }
  }

  lemma ContainsEmpty(s: string)
    ensures Contains(s, "")
  {
    assert OccursAt(s, "", 0);
    ContainsIff(s, "");
  }

  // ---------------------------------------------------------------------------
  // Splitting at a separator

  /** JavaScript's `s.split(sep)` for a one-character separator: always at least one piece. */
  function Split(s: string, sep: char): (r: seq<string>)
    ensures |r| >= 1
    ensures forall k :: 0 <= k < |r| ==> sep !in r[k]
    decreases |s|
  {
    if s == [] then [""]
    else
      var rest := Split(s[1..], sep);
      if s[0] == sep then [""] + rest
      else [[s[0]] + rest[0]] + rest[1..]
  }

  /** `pieces.join(sep)`. */
  function Join(pieces: seq<string>, sep: char): string
    requires |pieces| >= 1
  {
    if |pieces| == 1 then pieces[0] else pieces[0] + [sep] + Join(pieces[1..], sep)
  }

  /** Joining the pieces back with the separator gives the original string. */
  lemma {:induction false} JoinSplit(s: string, sep: char)
    ensures Join(Split(s, sep), sep) == s
    decreases |s|
  {
    if s != [] {
      var rest := Split(s[1..], sep);
      JoinSplit(s[1..], sep);
      if s[0] != sep {
        var r := Split(s, sep);
        assert r[1..] == rest[1..];
        if |rest| == 1 {
          assert Join(r, sep) == [s[0]] + rest[0];
        } else {
          assert Join(rest, sep) == rest[0] + [sep] + Join(rest[1..], sep);
          assert Join(r, sep) == ([s[0]] + rest[0]) + [sep] + Join(rest[1..], sep);
        }
      } else {
        assert ([""] + rest)[1..] == rest;
      }
    }
  }

  function CountChar(s: string, c: char): nat
  {
    if s == [] then 0 else (if s[0] == c then 1 else 0) + CountChar(s[1..], c)
  }

  /** There is one more piece than there are separators. */
  lemma {:induction false} SplitCount(s: string, sep: char)
    ensures |Split(s, sep)| == CountChar(s, sep) + 1
    decreases |s|
  {
    if s != [] {
      SplitCount(s[1..], sep);
    }
  }

  /** `strs.map(s => s.trim())`. */
  function TrimAll(strs: seq<string>): (r: seq<string>)
    ensures |r| == |strs|
    ensures forall k :: 0 <= k < |strs| ==> r[k] == Trim(strs[k])
  {
    seq(|strs|, k requires 0 <= k < |strs| => Trim(strs[k]))
  }

  // ---------------------------------------------------------------------------
  // Slugs

  /**
   * `s.replace(/\s+/g, '-')`: every maximal run of white space becomes one '-'. The scan
   * remembers whether the previous character was white space (`inRun`); the first space of
   * a run emits '-', the others emit nothing.
   */
  function HyphenateFrom(s: string, inRun: bool): string
  {
    if s == [] then "" else HyphenateStep(s[0], inRun) + HyphenateFrom(s[1..], IsSpace(s[0]))
  }

  /** What the scan emits for one character `c`. */
  function HyphenateStep(c: char, inRun: bool): string
  {
    if IsSpace(c) then (if inRun then "" else "-") else [c]
  }

  function Hyphenate(s: string): string
  {
    HyphenateFrom(s, false)
  }

  /** Whether the scan is inside a run after reading `s` from state `inRun`. */
  function RunStateAfter(s: string, inRun: bool): bool
  {
    if s == [] then inRun else IsSpace(s[|s| - 1])
  }

  /** The scan over `x + y` is the scan over `x` followed by the scan over `y`. */
  lemma {:induction false} HyphenateAppend(x: string, y: string, inRun: bool)
    ensures HyphenateFrom(x + y, inRun) == HyphenateFrom(x, inRun) + HyphenateFrom(y, RunStateAfter(x, inRun))
    decreases |x|
  {
    if x != [] {
      var x' := x[1..];
      assert (x + y)[0] == x[0];
      assert (x + y)[1..] == x' + y;
      HyphenateAppend(x', y, IsSpace(x[0]));
      assert RunStateAfter(x', IsSpace(x[0])) == RunStateAfter(x, inRun) by {
        if x' != [] {
          assert x'[|x'| - 1] == x[|x| - 1];
        }
      }
    } else {
      assert x + y == y;
    }
  }

  /** A whole run of white space yields one '-' when it starts a run and nothing inside one. */
  lemma {:induction false} HyphenateBlank(w: string, inRun: bool)
    requires w != [] && IsBlank(w)
    ensures HyphenateFrom(w, inRun) == if inRun then "" else "-"
    decreases |w|
  {
    if |w| > 1 {
      HyphenateBlank(w[1..], true);
    }
  }

  /** The state only matters in front of white space. */
  lemma HyphenateStateIrrelevant(b: string)
    requires b == [] || !IsSpace(b[0])
    ensures HyphenateFrom(b, true) == HyphenateFrom(b, false)
  {
  }

  /** The result is never longer than the input, holds no white space, and each of its characters is a '-' or comes from `s`. */
  lemma {:induction false} HyphenateChars(s: string, inRun: bool)
    ensures |HyphenateFrom(s, inRun)| <= |s|
    ensures HasNoSpace(HyphenateFrom(s, inRun))
    ensures forall i :: 0 <= i < |HyphenateFrom(s, inRun)| ==> HyphenateFrom(s, inRun)[i] == '-' || HyphenateFrom(s, inRun)[i] in s
    decreases |s|
  {
    if s != [] {
      HyphenateChars(s[1..], IsSpace(s[0]));
      assert forall c :: c in s[1..] ==> c in s;
    }
  }

  /** The slug of a site name: `name.toLowerCase().replace(/\s+/g, '-')`. */
  function Slug(name: string): (r: string)
    ensures |r| <= |name|
    ensures HasNoSpace(r) && IsLower(r)
  {
    var l := ToLower(name);
    HyphenateChars(l, false);
    var r := Hyphenate(l);
    assert forall i :: 0 <= i < |r| ==> LowerChar(r[i]) == r[i] by {
      forall i | 0 <= i < |r| ensures LowerChar(r[i]) == r[i] {
        if r[i] != '-' {
          var j :| 0 <= j < |l| && l[j] == r[i];
        }
      }
    }
    r
  }

  lemma {:induction false} HyphenateNoSpace(s: string, inRun: bool)
    requires HasNoSpace(s)
    ensures HyphenateFrom(s, inRun) == s
    decreases |s|
  {
    if s != [] {
      assert HasNoSpace(s[1..]) by {
        forall i | 0 <= i < |s[1..]| ensures !IsSpace(s[1..][i]) {
          assert s[1..][i] == s[i + 1];
        }
      }
      HyphenateNoSpace(s[1..], false);
    }
  }

  /** A name without white space only gets lower-cased. */
  lemma {:induction false} SlugWithoutSpace(name: string)
    requires HasNoSpace(name)
    ensures Slug(name) == ToLower(name)
  {
    assert HasNoSpace(ToLower(name)) by {
      forall i | 0 <= i < |name| ensures !IsSpace(ToLower(name)[i]) {
        LowerCharSpace(name[i]);
      }
    }
    HyphenateNoSpace(ToLower(name), false);
  }

  /** A slug is its own slug. */
  lemma {:induction false} SlugIdempotent(name: string)
    ensures Slug(Slug(name)) == Slug(name)
  {
    var s := Slug(name);
    SlugWithoutSpace(s);
    ToLowerOfLower(s);
  }

  /**
   * The run rule: a non-empty run of white space `w` between a part that does not end in
   * white space and a part that does not start with it turns into exactly one '-'.
   */
  lemma {:induction false} HyphenateRun(a: string, w: string, b: string)
    requires a == [] || !IsSpace(a[|a| - 1])
    requires w != [] && IsBlank(w)
    requires b == [] || !IsSpace(b[0])
    ensures Hyphenate(a + w + b) == Hyphenate(a) + "-" + Hyphenate(b)
  {
    HyphenateAppend(a + w, b, false);
    HyphenateAppend(a, w, false);
    assert RunStateAfter(a, false) == false;
    HyphenateBlank(w, false);
    assert RunStateAfter(a + w, false) == true by {
      assert (a + w)[|a + w| - 1] == w[|w| - 1];
    }
    HyphenateStateIrrelevant(b);
  }

  // ---------------------------------------------------------------------------
  // Decimal rendering of indices (`${index}` in a template literal)

  function DigitChar(d: nat): (c: char)
    requires d < 10
    ensures '0' <= c <= '9'
  {
    ('0' as int + d) as char
  }

  /** The decimal numeral of `n`, without leading zeros. */
  function NatToString(n: nat): (r: string)
    ensures |r| >= 1
    ensures forall i :: 0 <= i < |r| ==> '0' <= r[i] <= '9'
  {
    if n < 10 then [DigitChar(n)] else NatToString(n / 10) + [DigitChar(n % 10)]
  }

  /** Distinct numbers have distinct numerals. */
  lemma {:induction false} NatToStringInjective(m: nat, n: nat)
    requires NatToString(m) == NatToString(n)
    ensures m == n
    decreases m
  {
    var a, b := NatToString(m), NatToString(n);
    if m < 10 && n < 10 {
      assert a[0] == b[0];
    } else if m >= 10 && n >= 10 {
      assert a[|a| - 1] == b[|b| - 1];
      assert m % 10 == n % 10;
      assert a[..|a| - 1] == NatToString(m / 10);
      assert b[..|b| - 1] == NatToString(n / 10);
      NatToStringInjective(m / 10, n / 10);
    }
  }

  /** Strings with a common prefix are equal exactly when their remainders are. */
  lemma PrefixCancel(p: string, s: string, t: string)
    ensures p + s == p + t <==> s == t
  {
    if p + s == p + t {
      assert s == (p + s)[|p|..];
      assert t == (p + t)[|p|..];
    }
  }

  /** Two strings differ when some position holds different characters. */
  lemma DifferAt(a: string, b: string, k: nat)
    requires k < |a| && k < |b| && a[k] != b[k]
    ensures a != b
  {
  }
}
