/**
 * Shared vocabulary: optional values and the few Python string operations the
 * assistant's code relies on (`lower`, `upper`, `strip`, `in` on strings,
 * `str.join`, `str(int)`), stated on `seq<char>`.
 *
 * `Lower` and `Upper` map only the ASCII letters; `IsSpace` is exactly the set
 * of characters for which Python's `str.isspace()` holds, so `Strip` behaves
 * like `str.strip()` with no argument.
 */
module Common {

  datatype Option<+T> = None | Some(value: T) {
    /** `x if x is not None else default` */
    function GetOr(default: T): T
    {
      if Some? then value else default
    }
  }

  /** Python truthiness of an optional string: `None` and `""` are false. */
  predicate NonEmpty(s: Option<string>)
  {
    s.Some? && s.value != ""
  }

  /** `s or ""` */
  function OrEmpty(s: Option<string>): (r: string)
    ensures NonEmpty(s) ==> r == s.value
    ensures !NonEmpty(s) ==> r == ""
  {
    if s.Some? then s.value else ""
  }

  // ---------------------------------------------------------------------
  // Case mapping (ASCII letters only)
  // ---------------------------------------------------------------------

  function LowerChar(c: char): char
  {
    if 'A' <= c <= 'Z' then (c as int + 32) as char else c
  }

  function UpperChar(c: char): char
  {
    if 'a' <= c <= 'z' then (c as int - 32) as char else c
  }

  function Lower(s: string): (r: string)
    ensures |r| == |s|
    ensures forall i :: 0 <= i < |s| ==> r[i] == LowerChar(s[i])
  {
    if s == [] then [] else [LowerChar(s[0])] + Lower(s[1..])
  }

  function Upper(s: string): (r: string)
    ensures |r| == |s|
    ensures forall i :: 0 <= i < |s| ==> r[i] == UpperChar(s[i])
  {
    if s == [] then [] else [UpperChar(s[0])] + Upper(s[1..])
  }

  /** Upper-casing forgets the case of the input: `s.upper() == s.lower().upper()`. */
  lemma UpperOfLower(s: string)
    ensures Upper(Lower(s)) == Upper(s)
  {
    var a, b := Upper(Lower(s)), Upper(s);
    assert |a| == |b|;
    forall i | 0 <= i < |s| ensures a[i] == b[i] {
      assert Lower(s)[i] == LowerChar(s[i]);
    }
  }

  /** Lower-casing forgets the case of the input: `s.upper().lower() == s.lower()`. */
  lemma LowerOfUpper(s: string)
    ensures Lower(Upper(s)) == Lower(s)
  {
    var a, b := Lower(Upper(s)), Lower(s);
    assert |a| == |b|;
    forall i | 0 <= i < |s| ensures a[i] == b[i] {
      assert Upper(s)[i] == UpperChar(s[i]);
    }
  }

  /** Lower-casing works character by character, so it distributes over concatenation. */
  lemma LowerAppend(a: string, b: string)
    ensures Lower(a + b) == Lower(a) + Lower(b)
  {
    var l, r := Lower(a + b), Lower(a) + Lower(b);
    forall i | 0 <= i < |l| ensures l[i] == r[i] {
      if i < |a| {
        assert (a + b)[i] == a[i];
      } else {
        assert (a + b)[i] == b[i - |a|];
      }
    }
  }

  /** A string with no upper-case ASCII letter is its own lower-case form. */
  lemma LowerOfLowercase(s: string)
    requires forall i :: 0 <= i < |s| ==> !('A' <= s[i] <= 'Z')
    ensures Lower(s) == s
  {
  }

  lemma LowerIdempotent(s: string)
    ensures Lower(Lower(s)) == Lower(s)
  {
    var a, b := Lower(Lower(s)), Lower(s);
    forall i | 0 <= i < |s| ensures a[i] == b[i] {
      assert Lower(s)[i] == LowerChar(s[i]);
    }
  }

  // ---------------------------------------------------------------------
  // Whitespace and strip
  // ---------------------------------------------------------------------

  /** Python's `str.isspace()` on one character. */
  predicate IsSpace(c: char)
  {
    ('\t' <= c <= '\r') || ('\U{1C}' <= c <= ' ') || c == '\U{85}' || c == '\U{A0}'
    || c == '\U{1680}' || ('\U{2000}' <= c <= '\U{200A}') || c == '\U{2028}'
    || c == '\U{2029}' || c == '\U{202F}' || c == '\U{205F}' || c == '\U{3000}'
  }

  predicate AllSpace(s: string)
  {
    forall i :: 0 <= i < |s| ==> IsSpace(s[i])
  }

  function TrimStart(s: string): (r: string)
    ensures |r| <= |s| && r == s[|s| - |r|..]
    ensures AllSpace(s[..|s| - |r|])
    ensures r != [] ==> !IsSpace(r[0])
  {
    if s != [] && IsSpace(s[0]) then TrimStart(s[1..]) else s
  }

  function TrimEnd(s: string): (r: string)
    ensures |r| <= |s| && r == s[..|r|]
    ensures AllSpace(s[|r|..])
    ensures r != [] ==> !IsSpace(r[|r| - 1])
  {
    if s != [] && IsSpace(s[|s| - 1]) then TrimEnd(s[..|s| - 1]) else s
  }

  /** `s.strip()` */
  function Strip(s: string): (r: string)
    ensures |r| <= |s|
    ensures r != [] ==> !IsSpace(r[0]) && !IsSpace(r[|r| - 1])
    ensures forall i :: 0 <= i < |r| ==> r[i] in s
  {
    var t := TrimStart(s);
    var r := TrimEnd(t);
    assert forall i :: 0 <= i < |r| ==> r[i] == s[|s| - |t| + i];
    r
  }

  /** A string that neither starts nor ends with whitespace is its own `strip()`. */
  lemma StripUnpadded(s: string)
    requires s != [] && !IsSpace(s[0]) && !IsSpace(s[|s| - 1])
    ensures Strip(s) == s
  {
    assert TrimStart(s) == s;
    assert TrimEnd(s) == s;
  }

  lemma {:induction false} TrimStartPadded(pad: string, s: string)
    requires AllSpace(pad)
    ensures TrimStart(pad + s) == TrimStart(s)
    decreases |pad|
  {
    if pad != [] {
      assert (pad + s)[1..] == pad[1..] + s;
      TrimStartPadded(pad[1..], s);
    } else {
      assert pad + s == s;
    }
  }

  lemma {:induction false} TrimEndPadded(s: string, pad: string)
    requires AllSpace(pad)
    ensures TrimEnd(s + pad) == TrimEnd(s)
    decreases |pad|
  {
    if pad != [] {
      assert (s + pad)[..|s + pad| - 1] == s + pad[..|pad| - 1];
      TrimEndPadded(s, pad[..|pad| - 1]);
    } else {
      assert s + pad == s;
    }
  }

  /** Leading and trailing whitespace never changes the result of `strip()`. */
  lemma StripPadded(left: string, s: string, right: string)
    requires AllSpace(left) && AllSpace(right)
    ensures Strip(left + s + right) == Strip(s)
  {
    TrimStartPadded(left, s + right);
    assert left + s + right == left + (s + right);
    var t := TrimStart(s + right);
    // the trimmed start of s + right is (trimmed start of s) + right, unless s is all space
    TrimStartSplit(s, right);
    if TrimStart(s) == [] {
      assert TrimStart(s + right) == TrimStart(right);
      TrimEndPadded([], TrimStart(right));
      assert TrimEnd(TrimStart(right)) == [] by {
        var u := TrimStart(right);
        assert u == right[|right| - |u|..];
        assert AllSpace(u);
        TrimEndPadded([], u);
        assert [] + u == u;
      }
    } else {
      assert TrimStart(s + right) == TrimStart(s) + right;
      TrimEndPadded(TrimStart(s), right);
    }
  }

  lemma {:induction false} TrimStartSplit(s: string, right: string)
    requires AllSpace(right)
    ensures TrimStart(s) == [] ==> TrimStart(s + right) == TrimStart(right)
    ensures TrimStart(s) != [] ==> TrimStart(s + right) == TrimStart(s) + right
    decreases |s|
  {
    if s == [] {
      assert s + right == right;
    } else if IsSpace(s[0]) {
      assert (s + right)[1..] == s[1..] + right;
      TrimStartSplit(s[1..], right);
    } else {
      assert (s + right)[0] == s[0];
    }
  }

  // ---------------------------------------------------------------------
  // Substrings
  // ---------------------------------------------------------------------

  predicate StartsWith(s: string, prefix: string)
  {
    |prefix| <= |s| && s[..|prefix|] == prefix
  }

  predicate EndsWith(s: string, suffix: string)
  {
    |suffix| <= |s| && s[|s| - |suffix|..] == suffix
  }

  /** Python's `needle in hay` on strings. */
  predicate Contains(hay: string, needle: string)
  {
    StartsWith(hay, needle) || (hay != [] && Contains(hay[1..], needle))
  }

  /** `Contains` agrees with "occurs at some position". */
  lemma {:induction false} ContainsAt(hay: string, needle: string, k: nat)
    requires k + |needle| <= |hay| && hay[k..k + |needle|] == needle
    ensures Contains(hay, needle)
    decreases k
  {
    if k > 0 {
      assert hay[1..][k - 1..k - 1 + |needle|] == hay[k..k + |needle|];
      ContainsAt(hay[1..], needle, k - 1);
    }
  }

  lemma {:induction false} ContainsWitness(hay: string, needle: string) returns (k: nat)
    requires Contains(hay, needle)
    ensures k + |needle| <= |hay| && hay[k..k + |needle|] == needle
    decreases |hay|
  {
    if StartsWith(hay, needle) {
      k := 0;
    } else {
      var j := ContainsWitness(hay[1..], needle);
      k := j + 1;
      assert hay[1..][j..j + |needle|] == hay[k..k + |needle|];
    }
  }

  /** Containment is transitive: a string holding `big` holds everything `big` holds. */
  lemma ContainsTransitive(hay: string, big: string, small: string)
    requires Contains(hay, big) && Contains(big, small)
    ensures Contains(hay, small)
  {
    var i := ContainsWitness(hay, big);
    var j := ContainsWitness(big, small);
    assert hay[i..i + |big|] == big;
    forall k | 0 <= k < |small| ensures hay[i + j + k] == small[k] {
      assert big[j + k] == small[k];
      assert hay[i..i + |big|][j + k] == hay[i + j + k];
    }
    assert hay[i + j..i + j + |small|] == small;
    ContainsAt(hay, small, i + j);
  }

  // ---------------------------------------------------------------------
  // Joining and decimal numbers
  // ---------------------------------------------------------------------

  /** `sep.join(parts)` */
  function Join(parts: seq<string>, sep: string): string
  {
    if |parts| == 0 then ""
    else if |parts| == 1 then parts[0]
    else parts[0] + sep + Join(parts[1..], sep)
  }

  predicate IsDigit(c: char)
  {
    '0' <= c <= '9'
  }

  predicate AllDigits(s: string)
  {
    forall i :: 0 <= i < |s| ==> IsDigit(s[i])
  }

  function DigitChar(d: nat): (c: char)
    requires d < 10
    ensures IsDigit(c)
  {
    ('0' as int + d) as char
  }

  /** `str(n)` for a natural number. */
  function NatToString(n: nat): (r: string)
    ensures r != [] && AllDigits(r)
    ensures r[0] != '0' || n == 0
  {
    if n < 10 then [DigitChar(n)] else NatToString(n / 10) + [DigitChar(n % 10)]
  }

  /** `str(i)` for any integer. */
  function IntToString(i: int): (r: string)
    ensures i >= 0 ==> r == NatToString(i)
    ensures i < 0 ==> r == "-" + NatToString(-i)
  {
    if i < 0 then "-" + NatToString(-i) else NatToString(i)
  }

  /** `int(s)` for a string of decimal digits. */
  function DigitsValue(s: string): nat
    requires AllDigits(s)
  {
    if s == [] then 0 else 10 * DigitsValue(s[..|s| - 1]) + (s[|s| - 1] as int - '0' as int)
  }

  /** Reading back what `NatToString` prints gives the number again. */
  lemma {:induction false} NatToStringRoundTrip(n: nat)
    ensures DigitsValue(NatToString(n)) == n
  {
    if n >= 10 {
      var s := NatToString(n);
      assert s[..|s| - 1] == NatToString(n / 10);
      NatToStringRoundTrip(n / 10);
    }
  }
}
