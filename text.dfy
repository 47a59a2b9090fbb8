/** The few Python `str` operations the core relies on: case mapping,
    `startswith`, `split(sep, 1)` and `strip()`. */
module Text {
  import opened Outcome

  /** `str.isspace()` for one character: the characters `str.strip()` removes. */
  predicate IsSpace(c: char)
  {
    || ('\t' <= c <= '\r')
    || ('\U{1C}' <= c <= ' ')
    || c == '\U{85}' || c == '\U{A0}' || c == '\U{1680}'
    || ('\U{2000}' <= c <= '\U{200A}')
    || c == '\U{2028}' || c == '\U{2029}' || c == '\U{202F}' || c == '\U{205F}' || c == '\U{3000}'
  }

  predicate IsLatin1(s: string)
  {
    forall i :: 0 <= i < |s| ==> s[i] as int <= 0xFF
  }

  predicate StartsWith(s: string, prefix: string)
  {
    |prefix| <= |s| && s[..|prefix|] == prefix
  }

  /** Python's lower-case mapping of one character, exact on ASCII and
      Latin-1 and on every character whose lower-case form contains an ASCII
      or Latin-1 character; any other character is left as it is. Only the
      dotted capital I expands, and it expands to a form starting with 'i'. */
  function LowerChar(c: char): (r: string)
    ensures |r| >= 1
    ensures |r| > 1 ==> r[0] == 'i'
  {
    if 'A' <= c <= 'Z' || ('\U{C0}' <= c <= '\U{DE}' && c != '\U{D7}') then [(c as int + 32) as char]
    else if c == '\U{130}' then ['i', '\U{307}']
    else if c == '\U{178}' then ['\U{FF}']
    else if c == '\U{1E9E}' then ['\U{DF}']
    else if c == '\U{212A}' then ['k']
    else if c == '\U{212B}' then ['\U{E5}']
    else [c]
  }

  /** `str.lower()` */
  function Lower(s: string): string
  {
    if s == [] then [] else LowerChar(s[0]) + Lower(s[1..])
  }

  /** Python's upper-case mapping of one character, exact on ASCII and
      Latin-1 and on every character whose upper-case form consists only of
      ASCII or Latin-1 characters (the dotless i, the long s and the Latin
      ligatures among them); any other character is left as it is. Every expansion starts with 'S' or 'F'. */
  function UpperChar(c: char): (r: string)
    ensures |r| >= 1
    ensures |r| > 1 ==> r[0] == 'S' || r[0] == 'F'
  {
    if 'a' <= c <= 'z' || ('\U{E0}' <= c <= '\U{FE}' && c != '\U{F7}') then [(c as int - 32) as char]
    else if c == '\U{FF}' then ['\U{178}']
    else if c == '\U{B5}' then ['\U{39C}']
    else if c == '\U{DF}' then "SS"
    else if c == '\U{131}' then "I"
    else if c == '\U{17F}' then "S"
    else if c == '\U{FB00}' then "FF"
    else if c == '\U{FB01}' then "FI"
    else if c == '\U{FB02}' then "FL"
    else if c == '\U{FB03}' then "FFI"
    else if c == '\U{FB04}' then "FFL"
    else if c == '\U{FB05}' || c == '\U{FB06}' then "ST"
    else [c]
  }

  /** `str.upper()` */
  function Upper(s: string): string
  {
    if s == [] then [] else UpperChar(s[0]) + Upper(s[1..])
  }

  lemma {:induction false} UpperConcat(a: string, b: string)
    ensures Upper(a + b) == Upper(a) + Upper(b)
  {
    if a == [] {
      assert a + b == b;
    } else {
      assert (a + b)[0] == a[0] && (a + b)[1..] == a[1..] + b;
      UpperConcat(a[1..], b);
    }
  }

  /** Upper-casing twice is upper-casing once: every character `UpperChar`
      produces is its own upper-case form. */
  lemma {:induction false} UpperIdempotent(s: string)
    ensures Upper(Upper(s)) == Upper(s)
  {
    if s != [] {
      var u := UpperChar(s[0]);
      UpperConcat(u, Upper(s[1..]));
      UpperIdempotent(s[1..]);
      UpperCharFixed(u);
    }
  }

  lemma UpperCharFixed(u: string)
    requires exists c :: UpperChar(c) == u
    ensures Upper(u) == u
  {
    var c :| UpperChar(c) == u;
    assert |u| <= 3;
    if |u| >= 3 {
      assert Upper(u[2..]) == UpperChar(u[2]) + Upper(u[3..]);
    }
    if |u| >= 2 {
      assert Upper(u[1..]) == UpperChar(u[1]) + Upper(u[2..]);
    }
  }

  /** When the target holds no 'S' and no 'F', no expanding character can
      contribute to it, so `s` upper-cases to `t` exactly when it does so
      character by character. */
  lemma {:induction false} UpperEqualsIff(s: string, t: string)
    requires forall k :: 0 <= k < |t| ==> t[k] != 'S' && t[k] != 'F'
    ensures Upper(s) == t <==> |s| == |t| && forall i :: 0 <= i < |s| ==> UpperChar(s[i]) == [t[i]]
  {
    if s == [] {
    } else if t == [] {
      assert |Upper(s)| >= |UpperChar(s[0])| >= 1;
    } else {
      var u := UpperChar(s[0]);
      UpperEqualsIff(s[1..], t[1..]);
      if Upper(s) == t {
        assert Upper(s)[0] == u[0];
        assert |u| == 1;
        assert u == [t[0]];
        assert Upper(s[1..]) == t[1..];
      }
      if |s| == |t| && forall i :: 0 <= i < |s| ==> UpperChar(s[i]) == [t[i]] {
        assert forall i :: 0 <= i < |s[1..]| ==> UpperChar(s[1..][i]) == [t[1..][i]] by {
          forall i | 0 <= i < |s[1..]| ensures UpperChar(s[1..][i]) == [t[1..][i]] {
            assert s[1..][i] == s[i + 1] && t[1..][i] == t[i + 1];
          }
        }
        assert Upper(s) == [t[0]] + t[1..];
      }
    }
  }

  lemma StartsWithCons(c: char, rest: string, x: char, p: string)
    ensures StartsWith([c] + rest, [x] + p) <==> c == x && StartsWith(rest, p)
  {
    if c == x && StartsWith(rest, p) {
      assert ([c] + rest)[..|p| + 1] == [c] + rest[..|p|];
    }
    if StartsWith([c] + rest, [x] + p) {
      assert ([c] + rest)[..|p| + 1][0] == c;
      assert ([c] + rest)[..|p| + 1][1..] == rest[..|p|];
    }
  }

  /** A prefix that holds no 'i' is matched by the lower-cased string
      exactly when each of the first characters lower-cases to the
      corresponding prefix character on its own. */
  lemma {:induction false} LowerStartsWithIff(s: string, p: string)
    requires forall k :: 0 <= k < |p| ==> p[k] != 'i'
    ensures StartsWith(Lower(s), p) <==> |p| <= |s| && forall i :: 0 <= i < |p| ==> LowerChar(s[i]) == [p[i]]
  {
    if p == [] {
    } else if s == [] {
    } else {
      var l := LowerChar(s[0]);
      LowerStartsWithIff(s[1..], p[1..]);
      assert p == [p[0]] + p[1..];
      if |l| > 1 {
        assert Lower(s)[0] == 'i';
      } else {
        assert Lower(s) == [l[0]] + Lower(s[1..]);
        StartsWithCons(l[0], Lower(s[1..]), p[0], p[1..]);
        if |p| <= |s| && forall i :: 0 <= i < |p| ==> LowerChar(s[i]) == [p[i]] {
          forall i | 0 <= i < |p[1..]| ensures LowerChar(s[1..][i]) == [p[1..][i]] {
            assert s[1..][i] == s[i + 1] && p[1..][i] == p[i + 1];
          }
        }
        if StartsWith(Lower(s), p) {
          forall i | 0 <= i < |p| ensures LowerChar(s[i]) == [p[i]] {
            if i > 0 {
              assert s[1..][i - 1] == s[i] && p[1..][i - 1] == p[i];
            }
          }
        }
      }
    }
  }

  /** A string each of whose characters lower-cases to itself is its own lower-case form. */
  lemma {:induction false} LowerFixed(s: string)
    requires forall k :: 0 <= k < |s| ==> LowerChar(s[k]) == [s[k]]
    ensures Lower(s) == s
  {
    if s != [] {
      assert forall k :: 0 <= k < |s[1..]| ==> s[1..][k] == s[k + 1];
      LowerFixed(s[1..]);
    }
  }

  function AsciiUpper(x: char): char
  {
    if 'a' <= x <= 'z' then (x as int - 32) as char else x
  }

  function AsciiLower(x: char): char
  {
    if 'A' <= x <= 'Z' then (x as int + 32) as char else x
  }

  /** An ASCII character that is not a capital is its own lower-case form. */
  lemma LowerCharOfAscii(c: char)
    requires c as int < 128 && !('A' <= c <= 'Z')
    ensures LowerChar(c) == [c]
  {
  }

  /** A string of ASCII characters other than capitals is its own lower-case form, and Latin-1. */
  lemma LowerOfAscii(s: string)
    requires forall k :: 0 <= k < |s| ==> s[k] as int < 128 && !('A' <= s[k] <= 'Z')
    ensures Lower(s) == s && IsLatin1(s)
  {
    forall k | 0 <= k < |s| ensures LowerChar(s[k]) == [s[k]] {
      LowerCharOfAscii(s[k]);
    }
    LowerFixed(s);
  }

  /** Only the character itself and its ASCII capital lower-case to an ASCII
      character that is not a capital, except that the Kelvin sign also
      lower-cases to 'k'. */
  lemma LowerCharToAscii(c: char, x: char)
    requires x as int < 128 && !('A' <= x <= 'Z') && x != 'k'
    ensures LowerChar(c) == [x] <==> c == x || c == AsciiUpper(x)
  {
  }

  /** Only the character itself, its ASCII small letter, and for 'I' the
      dotless i and for 'S' the long s, upper-case to one ASCII character that
      is not a small letter. */
  lemma UpperCharToAscii(c: char, x: char)
    requires x as int < 128 && !('a' <= x <= 'z')
    ensures UpperChar(c) == [x] <==>
      c == x || c == AsciiLower(x) || (x == 'I' && c == '\U{131}') || (x == 'S' && c == '\U{17F}')
  {
  }

  /** A prefix of ASCII small letters other than 'i' and 'k' and of ASCII
      non-letters is matched by the lower-cased string exactly when the
      string starts with it up to ASCII case. */
  lemma LowerStartsWithAsciiIff(s: string, p: string)
    requires forall k :: 0 <= k < |p| ==> p[k] as int < 128 && !('A' <= p[k] <= 'Z') && p[k] != 'i' && p[k] != 'k'
    ensures StartsWith(Lower(s), p) <==>
      |p| <= |s| && forall i :: 0 <= i < |p| ==> s[i] == p[i] || s[i] == AsciiUpper(p[i])
  {
    LowerStartsWithIff(s, p);
    forall i | 0 <= i < |p| && i < |s|
      ensures LowerChar(s[i]) == [p[i]] <==> s[i] == p[i] || s[i] == AsciiUpper(p[i])
    {
      LowerCharToAscii(s[i], p[i]);
    }
  }

  /** A target of ASCII characters other than small letters, 'S' and 'F' is
      the upper-case form of `s` exactly when `s` spells it up to ASCII case,
      with the dotless i counting as an 'I'. */
  lemma UpperEqualsAsciiIff(s: string, t: string)
    requires forall k :: 0 <= k < |t| ==> t[k] as int < 128 && !('a' <= t[k] <= 'z') && t[k] != 'S' && t[k] != 'F'
    ensures Upper(s) == t <==>
      |s| == |t| && forall i :: 0 <= i < |s| ==> s[i] == t[i] || s[i] == AsciiLower(t[i]) || (t[i] == 'I' && s[i] == '\U{131}')
  {
    UpperEqualsIff(s, t);
    forall i | 0 <= i < |s| && i < |t|
      ensures UpperChar(s[i]) == [t[i]] <==> s[i] == t[i] || s[i] == AsciiLower(t[i]) || (t[i] == 'I' && s[i] == '\U{131}')
    {
      UpperCharToAscii(s[i], t[i]);
    }
  }

  /** `s.index(c)` when `c` occurs in `s`. */
  function IndexOf(s: string, c: char): (r: Option<nat>)
    ensures r.Some? ==> r.value < |s| && s[r.value] == c && forall k :: 0 <= k < r.value ==> s[k] != c
    ensures r.None? ==> forall k :: 0 <= k < |s| ==> s[k] != c
  {
    if s == [] then None
    else if s[0] == c then Some(0)
    else match IndexOf(s[1..], c)
      case None => None
      case Some(i) => Some(i + 1)
  }

  /** `s.split(sep, 1)`: the text before the first `sep` and the text after
      it, or the whole string alone when `sep` does not occur. */
  function SplitOnce(s: string, sep: char): (parts: seq<string>)
    ensures 1 <= |parts| <= 2
    ensures |parts| == 1 <==> sep !in s
    ensures |parts| == 1 ==> parts[0] == s
    ensures |parts| == 2 ==> parts[0] + [sep] + parts[1] == s && sep !in parts[0]
  {
    match IndexOf(s, sep)
    case None => [s]
    case Some(i) => assert s == s[..i] + [sep] + s[i + 1..]; [s[..i], s[i + 1..]]
  }

  function LeadingSpaces(s: string): (n: nat)
    ensures n <= |s|
    ensures forall k :: 0 <= k < n ==> IsSpace(s[k])
    ensures n < |s| ==> !IsSpace(s[n])
  {
    if s == [] || !IsSpace(s[0]) then 0 else 1 + LeadingSpaces(s[1..])
  }

  function TrailingSpaces(s: string): (n: nat)
    ensures n <= |s|
    ensures forall k :: |s| - n <= k < |s| ==> IsSpace(s[k])
    ensures n < |s| ==> !IsSpace(s[|s| - 1 - n])
  {
    if s == [] || !IsSpace(s[|s| - 1]) then 0 else 1 + TrailingSpaces(s[..|s| - 1])
  }

  /** The part of `s` that `strip()` keeps: `[lo, hi)` with only whitespace
      outside it and no whitespace at either end inside it. */
  function StripSpan(s: string): (span: (nat, nat))
    ensures span.0 <= span.1 <= |s|
    ensures forall k :: 0 <= k < span.0 ==> IsSpace(s[k])
    ensures forall k :: span.1 <= k < |s| ==> IsSpace(s[k])
    ensures span.0 < span.1 ==> !IsSpace(s[span.0]) && !IsSpace(s[span.1 - 1])
  {
    var lo := LeadingSpaces(s);
    if lo == |s| then (lo, lo) else (lo, |s| - TrailingSpaces(s))
  }

  lemma SliceParts(s: string, i: nat, j: nat)
    requires i <= j <= |s|
    ensures s == s[..i] + s[i..j] + s[j..]
  {
  }

  lemma SliceEnds(s: string, i: nat, j: nat)
    requires i <= j <= |s|
    ensures i < j ==> s[i..j][0] == s[i] && s[i..j][j - i - 1] == s[j - 1]
  {
  }

  /** `s.strip()`: `s` without its leading and trailing whitespace. */
  function Strip(s: string): (r: string)
    ensures r == [] || (!IsSpace(r[0]) && !IsSpace(r[|r| - 1]))
    ensures s == s[..StripSpan(s).0] + r + s[StripSpan(s).1..]
  {
    var span := StripSpan(s);
    SliceParts(s, span.0, span.1);
    SliceEnds(s, span.0, span.1);
    s[span.0..span.1]
  }
}
