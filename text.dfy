/**
 * The string operations of JavaScript that the quiz relies on, restated over `seq<char>`:
 * the whitespace class (shared by `\s` and `String.prototype.trim`), trimming, splitting
 * on `/\s+/`, lower-casing, `includes`, and decimal rendering of counters and indices.
 */
module Text {

  /** JavaScript's WhiteSpace and LineTerminator characters: what `\s` matches and `trim` removes. */
  predicate IsSpace(c: char)
  {
    || c == '\t' || c == '\n' || c == '\U{000B}' || c == '\U{000C}' || c == '\r' || c == ' '
    || c == '\U{00A0}' || c == '\U{1680}' || ('\U{2000}' <= c <= '\U{200A}')
    || c == '\U{2028}' || c == '\U{2029}' || c == '\U{202F}' || c == '\U{205F}'
    || c == '\U{3000}' || c == '\U{FEFF}'
  }

  predicate AllSpace(s: string)
  {
    forall k :: 0 <= k < |s| ==> IsSpace(s[k])
  }

  predicate NoSpace(s: string)
  {
    forall k :: 0 <= k < |s| ==> !IsSpace(s[k])
  }

  /** `s.length`: the number of UTF-16 code units, two for each character beyond U+FFFF. */
  function Utf16Length(s: string): (n: nat)
    ensures |s| <= n <= 2 * |s|
    ensures n == |s| <==> forall k :: 0 <= k < |s| ==> s[k] as int < 0x1_0000
  {
    if s == [] then 0
    else
      var n := (if s[0] as int < 0x1_0000 then 1 else 2) + Utf16Length(s[1..]);
      assert forall k :: 1 <= k < |s| ==> s[k] == s[1..][k - 1];
      n
  }

  predicate IsAsciiLetter(c: char)
  {
    'a' <= c <= 'z' || 'A' <= c <= 'Z'
  }

  /** A word of ASCII letters holds no whitespace. */
  lemma LettersNoSpace(s: string)
    requires forall k :: 0 <= k < |s| ==> IsAsciiLetter(s[k])
    ensures NoSpace(s)
  {
  }

  /** Lower-cases the ASCII letters A-Z and leaves every other character as it is. */
  function LowerChar(c: char): char
  {
    if 'A' <= c <= 'Z' then (c as int + 32) as char else c
  }

  function Lower(s: string): string
  {
    seq(|s|, k requires 0 <= k < |s| => LowerChar(s[k]))
  }

  /** Lower-casing works character by character, so it distributes over concatenation. */
  lemma LowerConcat(a: string, b: string)
    ensures Lower(a + b) == Lower(a) + Lower(b)
  {
  }

  /** Lower-casing twice is lower-casing once. */
  lemma LowerIdempotent(s: string)
    ensures Lower(Lower(s)) == Lower(s)
  {
  }

  /** Lower-casing leaves a string without upper-case ASCII letters as it is. */
  lemma LowerUnchanged(s: string)
    requires forall k :: 0 <= k < |s| ==> !('A' <= s[k] <= 'Z')
    ensures Lower(s) == s
  {
  }

  predicate EqualsIgnoringCase(a: string, b: string)
  {
    Lower(a) == Lower(b)
  }

  /** Number of whitespace characters at the front of `s`. */
  function LeadingSpaces(s: string): (n: nat)
    ensures n <= |s|
    ensures AllSpace(s[..n])
    ensures n < |s| ==> !IsSpace(s[n])
  {
    if s != [] && IsSpace(s[0]) then 1 + LeadingSpaces(s[1..]) else 0
  }

  /** Number of whitespace characters at the back of `s`. */
  function TrailingSpaces(s: string): (n: nat)
    ensures n <= |s|
    ensures AllSpace(s[|s| - n..])
    ensures n < |s| ==> !IsSpace(s[|s| - n - 1])
  {
    if s != [] && IsSpace(s[|s| - 1]) then 1 + TrailingSpaces(s[..|s| - 1]) else 0
  }

  /** `r` is what is left of `s` once `i` whitespace characters in front and only whitespace behind are cut off. */
  predicate TrimmedAt(s: string, r: string, i: nat)
  {
    i + |r| <= |s| && r == s[i..i + |r|] && AllSpace(s[..i]) && AllSpace(s[i + |r|..])
  }

  /** `String.prototype.trim`. */
  function Trim(s: string): (r: string)
    ensures r == "" || (!IsSpace(r[0]) && !IsSpace(r[|r| - 1]))
    ensures exists i: nat :: TrimmedAt(s, r, i)
  {
    var lead := LeadingSpaces(s);
    var rest := s[lead..];
    var trail := TrailingSpaces(rest);
    var r := rest[..|rest| - trail];
    assert r == s[lead..lead + |r|];
    assert s[lead + |r|..] == rest[|rest| - trail..];
    assert TrimmedAt(s, r, lead);
    r
  }

  lemma AllSpaceConcat(a: string, b: string)
    requires AllSpace(a) && AllSpace(b)
    ensures AllSpace(a + b)
  {
  }

  /** A trimmed string is empty exactly when the input holds nothing but whitespace. */
  lemma TrimEmptyIff(s: string)
    ensures Trim(s) == "" <==> AllSpace(s)
  {
    var r := Trim(s);
    var i: nat :| TrimmedAt(s, r, i);
    if r == "" {
      AllSpaceConcat(s[..i], s[i..]);
      assert s == s[..i] + s[i..];
    } else {
      assert s[i] == r[0];
    }
  }

  /** A string with no whitespace at either end is its own trim. */
  lemma TrimUnchanged(s: string)
    requires s == "" || (!IsSpace(s[0]) && !IsSpace(s[|s| - 1]))
    ensures Trim(s) == s
  {
    assert LeadingSpaces(s) == 0;
    assert s[0..] == s;
    assert TrailingSpaces(s) == 0;
    assert s[..|s|] == s;
  }

  /** One space in front of a string with no whitespace at either end is trimmed away. */
  lemma TrimLeadingSpace(s: string)
    requires s != [] && !IsSpace(s[0]) && !IsSpace(s[|s| - 1])
    ensures Trim(" " + s) == s
  {
    var t := " " + s;
    assert t[1..] == s;
    assert LeadingSpaces(t) == 1 + LeadingSpaces(s);
    TrimUnchanged(s);
  }

  /** Trimming twice is trimming once. */
  lemma TrimIdempotent(s: string)
    ensures Trim(Trim(s)) == Trim(s)
  {
    TrimUnchanged(Trim(s));
  }

  /**
   * `s.split(/\s+/)`: the fields between maximal whitespace runs, an empty field first when
   * `s` starts with whitespace and an empty field last when it ends with whitespace.
   */
  function SplitWs(s: string): (fields: seq<string>)
    ensures |fields| >= 1
    ensures forall f :: f in fields ==> NoSpace(f)
    decreases |s|
  {
    var k := FirstSpace(s);
    if k == |s| then [s]
    else
      var rest := s[k..];
      var w := LeadingSpaces(rest);
      [s[..k]] + SplitWs(rest[w..])
  }

  /**
   * The ends and the inside of a split of `s`: a text without whitespace is its own only
   * field; the first field is empty exactly when the text is empty or starts with whitespace,
   * the last of several exactly when the text ends with whitespace, and every field in between
   * is non-empty.
   */
  predicate FieldEnds(s: string, fields: seq<string>)
  {
    && |fields| >= 1
    && (NoSpace(s) <==> |fields| == 1)
    && (NoSpace(s) ==> fields == [s])
    && (fields[0] == "" <==> s == "" || IsSpace(s[0]))
    && (|fields| > 1 ==> s != "" && (fields[|fields| - 1] == "" <==> IsSpace(s[|s| - 1])))
    && (forall i :: 0 < i < |fields| - 1 ==> fields[i] != "")
  }

  /** `SplitWs` has the ends and inside of `FieldEnds`. */
  lemma {:induction false} SplitWsEnds(s: string)
    ensures FieldEnds(s, SplitWs(s))
    decreases |s|
  {
    var k := FirstSpace(s);
    if k == |s| {
      SplitWsJoinWord(s);
    } else {
      var t := s[k..][LeadingSpaces(s[k..])..];
      AfterSpaceRun(s);
      SplitWsEnds(t);
      ConsFields(s, s[..k], t, SplitWs(t));
      SplitWsStep(s);
    }
  }

  /** What is left after the first whitespace run of `s`: shorter than `s`, starting with a non-space, ending as `s` ends. */
  lemma AfterSpaceRun(s: string)
    requires FirstSpace(s) < |s|
    ensures var k := FirstSpace(s); var t := s[k..][LeadingSpaces(s[k..])..];
      && !NoSpace(s) && |t| < |s| && (k == 0 <==> IsSpace(s[0]))
      && (t != "" ==> !IsSpace(t[0]) && t[|t| - 1] == s[|s| - 1])
      && (t == "" ==> IsSpace(s[|s| - 1]))
  {
    var k := FirstSpace(s);
    assert IsSpace(s[k]);
    var rest := s[k..];
    assert rest[|rest| - 1] == s[|s| - 1];
    AfterRun(rest);
  }

  /** What follows the leading whitespace run of `rest`, which starts with whitespace. */
  lemma AfterRun(rest: string)
    requires rest != [] && IsSpace(rest[0])
    ensures var t := rest[LeadingSpaces(rest)..];
      && |t| < |rest|
      && (t != "" ==> !IsSpace(t[0]) && t[|t| - 1] == rest[|rest| - 1])
      && (t == "" ==> IsSpace(rest[|rest| - 1]))
  {
    var w := LeadingSpaces(rest);
    if w == |rest| {
      assert rest[..w][|rest| - 1] == rest[|rest| - 1];
    }
  }

  /**
   * `[a] + tail` has the ends and inside of a split of `s` when `a` is the text before the
   * first whitespace run of `s` and `tail` a split of the text `t` after that run.
   */
  lemma ConsFields(s: string, a: string, t: string, tail: seq<string>)
    requires !NoSpace(s) && (a == "" <==> IsSpace(s[0]))
    requires t != "" ==> !IsSpace(t[0]) && t[|t| - 1] == s[|s| - 1]
    requires t == "" ==> IsSpace(s[|s| - 1])
    requires FieldEnds(t, tail)
    ensures FieldEnds(s, [a] + tail)
  {
    var fields := [a] + tail;
    assert forall i :: 0 < i < |fields| ==> fields[i] == tail[i - 1];
    if |tail| == 1 && t != "" {
      assert t[|t| - 1] in t;
    }
  }

  /**
   * `s` with every maximal whitespace run replaced by one space: a character-by-character
   * reading of what `SplitWs` keeps, used to state that its fields are the whole text.
   */
  function Squeeze(s: string): (r: string)
    decreases |s|
  {
    if s == [] then []
    else if IsSpace(s[0]) then
      assert LeadingSpaces(s) > 0;
      " " + Squeeze(s[LeadingSpaces(s)..])
    else [s[0]] + Squeeze(s[1..])
  }

  /** One step of `SplitWs`: the text up to the first whitespace, then the fields after that run. */
  lemma SplitWsStep(s: string)
    ensures var k := FirstSpace(s);
      SplitWs(s) == if k == |s| then [s] else [s[..k]] + SplitWs(s[k..][LeadingSpaces(s[k..])..])
  {
  }

  /** A leading whitespace run becomes one space. */
  lemma SqueezeSpaces(s: string)
    requires s != [] && IsSpace(s[0])
    ensures Squeeze(s) == " " + Squeeze(s[LeadingSpaces(s)..])
  {
  }

  /** A leading word without whitespace comes through `Squeeze` unchanged. */
  lemma {:induction false} SqueezeWord(a: string, t: string)
    requires NoSpace(a)
    ensures Squeeze(a + t) == a + Squeeze(t)
  {
    if a != [] {
      var at := a + t;
      assert at[0] == a[0] && !IsSpace(at[0]);
      assert at[1..] == a[1..] + t;
      assert Squeeze(at) == [a[0]] + Squeeze(a[1..] + t);
      SqueezeWord(a[1..], t);
      assert a + Squeeze(t) == [a[0]] + (a[1..] + Squeeze(t));
    } else {
      assert a + t == t && a + Squeeze(t) == Squeeze(t);
    }
  }

  /**
   * The fields of `SplitWs(s)` joined with single spaces give `s` with each whitespace run
   * squeezed to one space. Since no field holds whitespace, this fixes the fields: they are
   * the maximal runs of non-whitespace characters of `s`, in order, with an empty field for
   * whitespace at either end.
   */
  lemma {:induction false} SplitWsJoin(s: string)
    ensures Join(SplitWs(s), " ") == Squeeze(s)
    decreases |s|
  {
    var k := FirstSpace(s);
    if k == |s| {
      SplitWsJoinWord(s);
    } else {
      var a, rest := s[..k], s[k..];
      var tail := rest[LeadingSpaces(rest)..];
      assert Join(SplitWs(s), " ") == a + " " + Join(SplitWs(tail), " ") by {
        JoinAfterWord(s);
      }
      assert Join(SplitWs(tail), " ") == Squeeze(tail) by {
        SplitWsJoin(tail);
      }
      assert Squeeze(s) == a + " " + Squeeze(tail) by {
        assert s == a + rest;
        SqueezeAfterWord(a, rest);
      }
    }
  }

  /** A text without whitespace is its own single field and its own squeeze. */
  lemma SplitWsJoinWord(s: string)
    requires FirstSpace(s) == |s|
    ensures NoSpace(s) && SplitWs(s) == [s] && Join(SplitWs(s), " ") == s == Squeeze(s)
  {
    assert s[..|s|] == s;
    SqueezeWord(s, "");
    assert s + "" == s;
  }

  /** The fields of a text with whitespace, joined: the text up to that whitespace, a space, and the joined fields after the run. */
  lemma JoinAfterWord(s: string)
    requires FirstSpace(s) < |s|
    ensures var k := FirstSpace(s); var tail := s[k..][LeadingSpaces(s[k..])..];
      Join(SplitWs(s), " ") == s[..k] + " " + Join(SplitWs(tail), " ")
  {
    var k := FirstSpace(s);
    var tail := s[k..][LeadingSpaces(s[k..])..];
    SplitWsStep(s);
    JoinCons(s[..k], SplitWs(tail), " ");
  }

  /** `Squeeze` of a word followed by whitespace: the word, a space, and the squeezed rest after the run. */
  lemma SqueezeAfterWord(a: string, rest: string)
    requires NoSpace(a) && rest != [] && IsSpace(rest[0])
    ensures Squeeze(a + rest) == a + " " + Squeeze(rest[LeadingSpaces(rest)..])
  {
    var tail := rest[LeadingSpaces(rest)..];
    SqueezeWord(a, rest);
    SqueezeSpaces(rest);
    assert a + (" " + Squeeze(tail)) == a + " " + Squeeze(tail);
  }

  /** Index of the first whitespace character of `s`, or `|s|`. */
  function FirstSpace(s: string): (k: nat)
    ensures k <= |s| && NoSpace(s[..k])
    ensures k < |s| ==> IsSpace(s[k])
  {
    if s == [] || IsSpace(s[0]) then 0 else 1 + FirstSpace(s[1..])
  }

  /** Every field produced by `SplitWs` occurs in the split string. */
  lemma {:induction false} SplitFieldsOccur(s: string, f: string)
    requires f in SplitWs(s)
    ensures Contains(s, f)
    decreases |s|
  {
    var k := FirstSpace(s);
    if k == |s| {
      assert f == s && s[0..|s|] == s;
      ContainsAt(s, s, 0);
    } else {
      var w := LeadingSpaces(s[k..]);
      var tail := s[k..][w..];
      assert SplitWs(s) == [s[..k]] + SplitWs(tail);
      if f == s[..k] {
        assert s[0..k] == f;
        ContainsAt(s, f, 0);
      } else {
        assert f in SplitWs(tail);
        SplitFieldsOccur(tail, f);
        assert tail == s[k + w..];
        ContainsSuffix(s, k + w, f);
      }
    }
  }

  /** Index of the first whitespace character of a word followed by a space is the word's length. */
  lemma {:induction false} FirstSpaceAfterWord(w: string, r: string)
    requires NoSpace(w)
    ensures FirstSpace(w + " " + r) == |w|
  {
    if w != [] {
      assert (w + " " + r)[1..] == w[1..] + " " + r;
      FirstSpaceAfterWord(w[1..], r);
    }
  }

  /** Splitting a word, one space and a rest gives the word, then the fields of the rest without its leading whitespace. */
  lemma SplitWsWord(w: string, r: string)
    requires NoSpace(w)
    ensures SplitWs(w + " " + r) == [w] + SplitWs(r[LeadingSpaces(r)..])
  {
    var s := w + " " + r;
    FirstSpaceAfterWord(w, r);
    assert s[..|w|] == w;
    assert s[|w|..] == " " + r;
    assert (" " + r)[1..] == r;
    assert LeadingSpaces(" " + r) == 1 + LeadingSpaces(r);
    assert (" " + r)[1 + LeadingSpaces(r)..] == r[LeadingSpaces(r)..];
  }

  /** Three words, each followed by one space, split off the front of a string. */
  lemma ThreeWords(w1: string, w2: string, w3: string, r: string)
    requires NoSpace(w1) && NoSpace(w2) && NoSpace(w3) && w2 != [] && w3 != []
    ensures SplitWs(w1 + " " + (w2 + " " + (w3 + " " + r))) == [w1, w2, w3] + SplitWs(r[LeadingSpaces(r)..])
  {
    var rest := SplitWs(r[LeadingSpaces(r)..]);
    var t2 := w3 + " " + r;
    var t1 := w2 + " " + t2;
    SplitWsWord(w3, r);
    assert t2[LeadingSpaces(t2)..] == t2 by { assert !IsSpace(t2[0]); }
    SplitWsWord(w2, t2);
    assert SplitWs(t1) == [w2] + ([w3] + rest);
    assert t1[LeadingSpaces(t1)..] == t1 by { assert !IsSpace(t1[0]); }
    SplitWsWord(w1, t1);
    assert SplitWs(w1 + " " + t1) == [w1] + ([w2] + ([w3] + rest));
    ConsThree(w1, w2, w3, rest);
  }

  lemma SplitWsSingle(w: string)
    requires NoSpace(w)
    ensures SplitWs(w) == [w]
  {
    FirstSpaceAll(w);
  }

  lemma {:induction false} FirstSpaceAll(w: string)
    requires NoSpace(w)
    ensures FirstSpace(w) == |w|
  {
    if w != [] {
      FirstSpaceAll(w[1..]);
    }
  }

  /** Two words separated by one space split into the two words. */
  lemma SplitWsTwo(w1: string, w2: string)
    requires NoSpace(w1) && NoSpace(w2) && w2 != []
    ensures SplitWs(w1 + " " + w2) == [w1, w2]
  {
    SplitWsWord(w1, w2);
    assert LeadingSpaces(w2) == 0 by { assert !IsSpace(w2[0]); }
    assert w2[0..] == w2;
    SplitWsSingle(w2);
  }

  lemma ConsThree<T>(a: T, b: T, c: T, rest: seq<T>)
    ensures [a] + ([b] + ([c] + rest)) == [a, b, c] + rest
  {
  }

  /** `hay.includes(needle)`. */
  predicate Contains(hay: string, needle: string)
    decreases |hay|
  {
    needle <= hay || (hay != [] && Contains(hay[1..], needle))
  }

  /** `needle` occupies the positions `i..i + |needle|` of `hay`. */
  predicate OccursAt(hay: string, needle: string, i: nat)
  {
    i + |needle| <= |hay| && hay[i..i + |needle|] == needle
  }

  /** `Contains` holds exactly when the needle sits at some offset of the haystack. */
  lemma {:induction false} ContainsIff(hay: string, needle: string)
    ensures Contains(hay, needle) <==> exists i: nat :: OccursAt(hay, needle, i)
    decreases |hay|
  {
    if Contains(hay, needle) {
      if needle <= hay {
        assert OccursAt(hay, needle, 0);
      } else {
        ContainsIff(hay[1..], needle);
        var i: nat :| OccursAt(hay[1..], needle, i);
        assert hay[i + 1..i + 1 + |needle|] == hay[1..][i..i + |needle|];
        assert OccursAt(hay, needle, i + 1);
      }
    } else {
      forall i: nat | OccursAt(hay, needle, i) ensures false {
        ContainsAt(hay, needle, i);
      }
    }
  }

  lemma {:induction false} ContainsAt(hay: string, needle: string, i: nat)
    requires OccursAt(hay, needle, i)
    ensures Contains(hay, needle)
    decreases i
  {
    if i == 0 {
      assert needle <= hay;
    } else {
      assert hay[1..][i - 1..i - 1 + |needle|] == hay[i..i + |needle|];
      ContainsAt(hay[1..], needle, i - 1);
    }
  }

  /** A string occurs in any string built around it. */
  lemma ContainsMiddle(a: string, needle: string, b: string)
    ensures Contains(a + needle + b, needle)
  {
    assert (a + needle + b)[|a|..|a| + |needle|] == needle;
    ContainsAt(a + needle + b, needle, |a|);
  }

  /** What occurs in a suffix occurs in the whole. */
  lemma ContainsSuffix(hay: string, j: nat, needle: string)
    requires j <= |hay| && Contains(hay[j..], needle)
    ensures Contains(hay, needle)
  {
    ContainsIff(hay[j..], needle);
    var i: nat :| OccursAt(hay[j..], needle, i);
    assert hay[j + i..j + i + |needle|] == hay[j..][i..i + |needle|];
    ContainsAt(hay, needle, j + i);
  }

  /** Lower-casing both sides keeps an occurrence. */
  lemma LowerKeepsContains(hay: string, needle: string)
    requires Contains(hay, needle)
    ensures Contains(Lower(hay), Lower(needle))
  {
    ContainsIff(hay, needle);
    var i: nat :| OccursAt(hay, needle, i);
    assert Lower(hay)[i..i + |needle|] == Lower(needle) by {
      var lh, ln := Lower(hay), Lower(needle);
      assert |lh[i..i + |needle|]| == |ln|;
      forall k | 0 <= k < |needle|
        ensures lh[i..i + |needle|][k] == ln[k]
      {
        assert hay[i..i + |needle|][k] == needle[k];
      }
    }
    ContainsAt(Lower(hay), Lower(needle), i);
  }

  /** A needle longer than the haystack does not occur in it. */
  lemma NotContainsLonger(hay: string, needle: string)
    requires |needle| > |hay|
    ensures !Contains(hay, needle)
  {
    if Contains(hay, needle) {
      ContainsIff(hay, needle);
    }
  }

  /** A needle whose first character the haystack lacks does not occur in it. */
  lemma {:induction false} NotContainsFirstChar(hay: string, needle: string)
    requires needle != [] && needle[0] !in hay
    ensures !Contains(hay, needle)
    decreases |hay|
  {
    if hay != [] {
      assert needle[0] !in hay[1..];
      NotContainsFirstChar(hay[1..], needle);
    }
  }

  /** Every string contains itself. */
  lemma ContainsSelf(s: string)
    ensures Contains(s, s)
  {
    assert s <= s;
  }

  /** The character of a decimal digit. */
  function DigitChar(d: nat): (c: char)
    requires d < 10
    ensures '0' <= c <= '9' && c as int - '0' as int == d
  {
    ('0' as int + d) as char
  }

  predicate IsDigits(s: string)
  {
    forall k :: 0 <= k < |s| ==> '0' <= s[k] <= '9'
  }

  /** A template literal's rendering of a non-negative integer: `${n}`. */
  function NatToString(n: nat): (s: string)
    ensures |s| >= 1 && IsDigits(s)
    ensures |s| > 1 ==> s[0] != '0'
  {
    if n < 10 then [DigitChar(n)] else NatToString(n / 10) + [DigitChar(n % 10)]
  }

  /** The value of a string of decimal digits. */
  function DigitsValue(s: string): nat
    requires IsDigits(s)
  {
    if s == [] then 0 else DigitsValue(s[..|s| - 1]) * 10 + (s[|s| - 1] as int - '0' as int)
  }

  /** Reading back a rendered number gives the number. */
  lemma {:induction false} NatToStringRoundTrip(n: nat)
    ensures DigitsValue(NatToString(n)) == n
  {
    if n >= 10 {
      var s := NatToString(n);
      assert s[..|s| - 1] == NatToString(n / 10);
      NatToStringRoundTrip(n / 10);
    }
  }

  /** Different numbers render differently. */
  lemma NatToStringInjective(a: nat, b: nat)
    requires NatToString(a) == NatToString(b)
    ensures a == b
  {
    NatToStringRoundTrip(a);
    NatToStringRoundTrip(b);
  }

  /** Joining a part in front of a non-empty list puts the separator between them. */
  lemma JoinCons(x: string, parts: seq<string>, sep: string)
    requires parts != []
    ensures Join([x] + parts, sep) == x + sep + Join(parts, sep)
  {
    assert ([x] + parts)[1..] == parts;
  }

  /** `parts.join(sep)`. */
  function Join(parts: seq<string>, sep: string): (r: string)
    ensures parts == [] ==> r == ""
    ensures |parts| == 1 ==> r == parts[0]
  {
    if parts == [] then ""
    else if |parts| == 1 then parts[0]
    else parts[0] + sep + Join(parts[1..], sep)
  }
}
