/** Python string operations the modelled code relies on, on sequences of characters. */
module Text {

  /** `str.isspace` of one character: the complete list Python uses for `str.strip`. */
  predicate IsSpace(c: char) {
    || '\t' <= c <= '\r'
    || '\U{1C}' <= c <= ' '
    || c == '\U{85}' || c == '\U{A0}' || c == '\U{1680}'
    || '\U{2000}' <= c <= '\U{200A}'
    || c == '\U{2028}' || c == '\U{2029}' || c == '\U{202F}' || c == '\U{205F}' || c == '\U{3000}'
  }

  function StripLeft(s: string): string {
    if s != "" && IsSpace(s[0]) then StripLeft(s[1..]) else s
  }

  function StripRight(s: string): string {
    if s != "" && IsSpace(s[|s| - 1]) then StripRight(s[..|s| - 1]) else s
  }

  function Strip(s: string): string {
    StripRight(StripLeft(s))
  }

  predicate Trimmed(s: string) {
    s != "" ==> !IsSpace(s[0]) && !IsSpace(s[|s| - 1])
  }

  lemma {:induction false} StripRightTrims(s: string)
    ensures StripRight(s) <= s
    ensures StripRight(s) != "" ==> !IsSpace(StripRight(s)[|StripRight(s)| - 1])
  {
    if s != "" && IsSpace(s[|s| - 1]) {
      StripRightTrims(s[..|s| - 1]);
    }
  }

  lemma {:induction false} StripLeftTrims(s: string)
    ensures |StripLeft(s)| <= |s|
    ensures StripLeft(s) != "" ==> !IsSpace(StripLeft(s)[0])
  {
    if s != "" && IsSpace(s[0]) {
      StripLeftTrims(s[1..]);
    }
  }

  lemma StripTrims(s: string)
    ensures Trimmed(Strip(s)) && |Strip(s)| <= |s|
  {
    StripLeftTrims(s);
    StripRightTrims(StripLeft(s));
  }

  lemma StripOfTrimmed(s: string)
    requires Trimmed(s)
    ensures Strip(s) == s
  {
  }

  /** `s.split(sep)`. */
  function Split(s: string, sep: char): (parts: seq<string>)
    ensures |parts| >= 1
  {
    if s == "" then [""]
    else if s[0] == sep then [""] + Split(s[1..], sep)
    else
      var rest := Split(s[1..], sep);
      [[s[0]] + rest[0]] + rest[1..]
  }

  function Join(parts: seq<string>, sep: char): string {
    if |parts| == 0 then ""
    else if |parts| == 1 then parts[0]
    else parts[0] + [sep] + Join(parts[1..], sep)
  }

  lemma {:induction false} SplitParts(s: string, sep: char)
    ensures forall i :: 0 <= i < |Split(s, sep)| ==> sep !in Split(s, sep)[i]
    ensures Join(Split(s, sep), sep) == s
  {
    if s != "" {
      SplitParts(s[1..], sep);
      var rest := Split(s[1..], sep);
      var parts := Split(s, sep);
      if s[0] == sep {
        assert parts[1..] == rest;
      } else {
        assert parts[1..] == rest[1..];
        assert rest == [rest[0]] + rest[1..];
        assert forall i :: 1 <= i < |parts| ==> parts[i] == rest[i];
      }
    }
  }

  lemma {:induction false} SplitFree(s: string, sep: char)
    requires sep !in s
    ensures Split(s, sep) == [s]
  {
    if s != "" {
      assert forall c :: c in s[1..] ==> c in s;
      SplitFree(s[1..], sep);
      assert [s[0]] + s[1..] == s;
    }
  }

  lemma {:induction false} SplitFirst(a: string, b: string, sep: char)
    requires sep !in a
    ensures Split(a + [sep] + b, sep) == [a] + Split(b, sep)
  {
    var s := a + [sep] + b;
    if a == "" {
      assert s[1..] == b;
    } else {
      assert forall c :: c in a[1..] ==> c in a;
      SplitFirst(a[1..], b, sep);
      assert s[1..] == a[1..] + [sep] + b;
      assert [a[0]] + a[1..] == a;
      var rest := Split(s[1..], sep);
      assert rest[1..] == Split(b, sep);
    }
  }

  /** `str.lower` of one character, exact as far as ASCII letters in the result go: besides
      A-Z only U+212A (Kelvin sign) and U+0130 lower to something containing an ASCII letter. */
  function LowerChar(c: char): string {
    if 'A' <= c <= 'Z' then [(c as int + 32) as char]
    else if c == '\U{212A}' then "k"
    else if c == '\U{130}' then ['i', '\U{307}']
    else [c]
  }

  function Lower(s: string): string {
    if s == "" then "" else LowerChar(s[0]) + Lower(s[1..])
  }

  lemma {:induction false} LowerConcat(a: string, b: string)
    ensures Lower(a + b) == Lower(a) + Lower(b)
  {
    hide LowerChar;
    if a == "" {
      assert a + b == b;
    } else {
      LowerConcat(a[1..], b);
      assert (a + b)[1..] == a[1..] + b;
      assert LowerChar(a[0]) + (Lower(a[1..]) + Lower(b)) == LowerChar(a[0]) + Lower(a[1..]) + Lower(b);
    }
  }

  predicate OccursAt(hay: string, needle: string, i: int) {
    0 <= i <= |hay| - |needle| && hay[i..i + |needle|] == needle
  }

  /** `needle in hay`. */
  predicate Contains(hay: string, needle: string) {
    exists i :: 0 <= i <= |hay| && OccursAt(hay, needle, i)
  }

  lemma ContainsInPrefix(a: string, b: string, needle: string)
    requires Contains(a, needle)
    ensures Contains(a + b, needle)
  {
    var i :| 0 <= i <= |a| && OccursAt(a, needle, i);
    assert (a + b)[i..i + |needle|] == needle;
    assert OccursAt(a + b, needle, i);
  }

  // ----- What these operations do, character by character -----

  /** The code points `str.strip` removes. */
  lemma SpaceCodes(c: char)
    ensures IsSpace(c) <==>
      (var n := c as int;
       n in {9, 10, 11, 12, 13, 28, 29, 30, 31, 32, 0x85, 0xA0, 0x1680, 0x2028, 0x2029, 0x202F, 0x205F, 0x3000}
       || 0x2000 <= n <= 0x200A)
  {
  }

  predicate AllSpace(s: string) {
    forall i :: 0 <= i < |s| ==> IsSpace(s[i])
  }

  lemma {:induction false} StripLeftDropsSpace(s: string)
    ensures exists a :: AllSpace(a) && s == a + StripLeft(s)
  {
    if s != "" && IsSpace(s[0]) {
      StripLeftDropsSpace(s[1..]);
      var a :| AllSpace(a) && s[1..] == a + StripLeft(s[1..]);
      assert AllSpace([s[0]] + a) && s == [s[0]] + a + StripLeft(s);
    } else {
      assert AllSpace("") && s == "" + StripLeft(s);
    }
  }

  lemma {:induction false} StripRightDropsSpace(s: string)
    ensures exists b :: AllSpace(b) && s == StripRight(s) + b
  {
    if s != "" && IsSpace(s[|s| - 1]) {
      var init := s[..|s| - 1];
      StripRightDropsSpace(init);
      var b :| AllSpace(b) && init == StripRight(init) + b;
      assert AllSpace(b + [s[|s| - 1]]) && s == StripRight(s) + (b + [s[|s| - 1]]);
    } else {
      assert AllSpace("") && s == StripRight(s) + "";
    }
  }

  /** Stripping drops whitespace at both ends and nothing else, until neither end has any. */
  lemma StripMeaning(s: string)
    ensures Trimmed(Strip(s)) && exists a, b :: AllSpace(a) && AllSpace(b) && s == a + Strip(s) + b
  {
    StripTrims(s);
    StripLeftDropsSpace(s);
    StripRightDropsSpace(StripLeft(s));
    var a :| AllSpace(a) && s == a + StripLeft(s);
    var b :| AllSpace(b) && StripLeft(s) == StripRight(StripLeft(s)) + b;
    assert s == a + Strip(s) + b;
  }

  lemma StripDrops(a: string, text: string, b: string)
    requires AllSpace(a) && AllSpace(b) && Trimmed(text) && text != ""
    ensures Strip(a + text + b) == text
  {
    StripLeftDrops(a, text + b);
    assert a + text + b == a + (text + b);
    StripRightDrops(text, b);
  }

  lemma {:induction false} StripLeftDrops(a: string, rest: string)
    requires AllSpace(a) && rest != "" && !IsSpace(rest[0])
    ensures StripLeft(a + rest) == rest
  {
    hide IsSpace;
    if a == "" {
      assert a + rest == rest;
    } else {
      assert (a + rest)[0] == a[0] && (a + rest)[1..] == a[1..] + rest;
      StripLeftDrops(a[1..], rest);
    }
  }

  lemma {:induction false} StripRightDrops(text: string, b: string)
    requires AllSpace(b) && text != "" && !IsSpace(text[|text| - 1])
    ensures StripRight(text + b) == text
    decreases |b|
  {
    hide IsSpace;
    if b == "" {
      assert text + b == text;
    } else {
      var last := |b| - 1;
      assert (text + b)[|text + b| - 1] == b[last] && (text + b)[..|text + b| - 1] == text + b[..last];
      StripRightDrops(text, b[..last]);
    }
  }

  /** Lower-casing turns exactly A to Z into a to z among ASCII characters, and leaves the others. */
  predicate LowerOf(c: char, d: char) {
    c < '\U{80}' && d == if 'A' <= c <= 'Z' then (c as int + 32) as char else c
  }

  lemma {:induction false} LowerMeaning(s: string, t: string)
    requires |t| == |s| && forall i :: 0 <= i < |s| ==> LowerOf(s[i], t[i])
    ensures Lower(s) == t
  {
    if s != "" {
      assert LowerOf(s[0], t[0]);
      LowerMeaning(s[1..], t[1..]);
      assert t == [t[0]] + t[1..];
    }
  }

  /** A word of letters a to z other than k, with some of them possibly capitals. */
  predicate CapitalsOf(s: string, word: string) {
    |s| == |word| && forall i :: 0 <= i < |s| ==> s[i] == word[i] || s[i] as int + 32 == word[i] as int
  }

  /** What lowers to such a word is the word in some capitals, and nothing else. */
  lemma {:induction false} LowersToWord(s: string, word: string)
    requires forall i :: 0 <= i < |word| ==> 'a' <= word[i] <= 'z' && word[i] != 'k'
    ensures Lower(s) == word <==> CapitalsOf(s, word)
  {
    if s != "" {
      var head, rest := LowerChar(s[0]), Lower(s[1..]);
      assert Lower(s) == head + rest;
      if |head| == 1 && word != "" {
        LowersToWord(s[1..], word[1..]);
        assert word == [word[0]] + word[1..];
        assert head + rest == word <==> head[0] == word[0] && rest == word[1..] by {
          assert (head + rest)[1..] == rest;
        }
        assert CapitalsOf(s, word) <==>
          (s[0] == word[0] || s[0] as int + 32 == word[0] as int) && CapitalsOf(s[1..], word[1..]) by {
          assert forall i :: 0 <= i < |s| - 1 ==> s[1..][i] == s[i + 1];
          assert forall i :: 0 <= i < |word| - 1 ==> word[1..][i] == word[i + 1];
          if CapitalsOf(s[1..], word[1..]) {
            forall i | 1 <= i < |s| ensures s[i] == word[i] || s[i] as int + 32 == word[i] as int {
              assert s[i] == s[1..][i - 1];
            }
          }
        }
      } else if |head| == 2 {
        assert (head + rest)[0] == 'i' && (head + rest)[1] == '\U{307}';
      }
    }
  }

  lemma ContainsMiddle(a: string, needle: string, b: string)
    ensures Contains(a + needle + b, needle)
  {
    assert OccursAt(a + needle + b, needle, |a|);
  }
}
