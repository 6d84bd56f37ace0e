/** Dot paths and letter case, as a locale lookup treats them. */
module LocaleText {
  const LONG_S := '\U{017F}'
  const KELVIN := '\U{212A}'
  const DOTTED_I := '\U{0130}'

  predicate IsAscii(c: char) {
    c < '\U{0080}'
  }

  predicate Ascii(s: string) {
    forall i :: 0 <= i < |s| ==> IsAscii(s[i])
  }

  function LowerAscii(c: char): char {
    if 'A' <= c <= 'Z' then ((c as int) + 32) as char else c
  }

  /** The lowering and folding tables of the Unicode library. */
  datatype Cases = Cases(lower: char -> char, fold: char -> char)

  /** What lookups rest on: both tables lower ASCII letters and keep other ASCII characters;
      only the Kelvin sign and the dotted capital I are lowered to ASCII from outside it, and
      only the Kelvin sign and the long s fold with an ASCII letter. How any other character is
      lowered or folded is left open. */
  ghost predicate Fits(t: Cases) {
    && (forall c :: IsAscii(c) ==> t.lower(c) == LowerAscii(c))
    && (forall c :: IsAscii(c) ==> t.fold(c) == LowerAscii(c))
    && t.lower(KELVIN) == t.fold(KELVIN) == 'k' && t.lower(DOTTED_I) == 'i' && t.fold(LONG_S) == 's'
    && (forall c :: !IsAscii(c) && c != KELVIN && c != DOTTED_I ==> !IsAscii(t.lower(c)))
    && (forall c :: !IsAscii(c) && c != KELVIN && c != LONG_S ==> !IsAscii(t.fold(c)))
  }

  /** Tables that leave every other character alone. */
  const PLAIN := Cases(
    c => if c == KELVIN then 'k' else if c == DOTTED_I then 'i' else LowerAscii(c),
    c => if c == KELVIN then 'k' else if c == LONG_S then 's' else LowerAscii(c))

  type Casing = t: Cases | Fits(t) witness PLAIN

  /** Any fitting tables: nothing more is known of them. */
  const CASES: Casing

  function LowerChar(c: char): (r: char)
    ensures IsAscii(r) <==> IsAscii(c) || c == KELVIN || c == DOTTED_I
    ensures r == '.' <==> c == '.'
    ensures IsAscii(r) ==> LowerAscii(r) == r
  {
    CASES.lower(c)
  }

  /** A representative of the characters that fold together. */
  function FoldChar(c: char): (r: char)
    ensures IsAscii(r) <==> IsAscii(c) || c == KELVIN || c == LONG_S
    ensures r == '.' <==> c == '.'
    ensures IsAscii(r) ==> LowerAscii(r) == r
  {
    CASES.fold(c)
  }

  function Lower(s: string): string {
    seq(|s|, i requires 0 <= i < |s| => LowerChar(s[i]))
  }

  function Fold(s: string): string {
    seq(|s|, i requires 0 <= i < |s| => FoldChar(s[i]))
  }

  /** On these two characters lowering and folding part ways about ASCII. */
  predicate CaseSafe(s: string) {
    LONG_S !in s && DOTTED_I !in s
  }

  /** A text that an ASCII key might match, by one way or the other, is matched alike by both
      exactly when it has neither of the two characters. */
  lemma FoldIsLowerExactly(s: string)
    ensures Ascii(Lower(s)) || Ascii(Fold(s)) ==> (Fold(s) == Lower(s) <==> CaseSafe(s))
    ensures CaseSafe(s) ==> (Ascii(Lower(s)) <==> Ascii(Fold(s)))
    ensures Ascii(s) ==> Fold(s) == Lower(s) && Ascii(Lower(s))
  {
    if !CaseSafe(s) {
      var i :| 0 <= i < |s| && (s[i] == LONG_S || s[i] == DOTTED_I);
      assert IsAscii(Lower(s)[i]) != IsAscii(Fold(s)[i]);
    } else {
      forall i | 0 <= i < |s|
        ensures IsAscii(Lower(s)[i]) <==> IsAscii(Fold(s)[i])
        ensures IsAscii(Lower(s)[i]) ==> Lower(s)[i] == Fold(s)[i]
      {
        CharsAgree(s[i]);
      }
    }
  }

  lemma CharsAgree(c: char)
    requires c != LONG_S && c != DOTTED_I
    ensures IsAscii(LowerChar(c)) ==> LowerChar(c) == FoldChar(c)
  {
    assert IsAscii(c) ==> CASES.lower(c) == LowerAscii(c) && CASES.fold(c) == LowerAscii(c);
  }

  /** What any fitting tables do: both lower the letters A to Z and keep every other ASCII
      character, and from outside ASCII only three characters come in. */
  lemma CharsExactly(c: char)
    ensures 'A' <= c <= 'Z' ==> LowerChar(c) as int == FoldChar(c) as int == c as int + 32
    ensures c < '\U{0080}' && !('A' <= c <= 'Z') ==> LowerChar(c) == FoldChar(c) == c
    ensures c >= '\U{0080}' ==> (LowerChar(c) < '\U{0080}' <==> c in {'\U{212A}', '\U{0130}'})
    ensures c >= '\U{0080}' ==> (FoldChar(c) < '\U{0080}' <==> c in {'\U{212A}', '\U{017F}'})
    ensures LowerChar('\U{212A}') == FoldChar('\U{212A}') == 'k'
    ensures LowerChar('\U{0130}') == 'i' && FoldChar('\U{017F}') == 's'
  {
    assert c < '\U{0080}' ==> CASES.lower(c) == LowerAscii(c) && CASES.fold(c) == LowerAscii(c);
  }

  /** An ASCII text that came out of lowering or folding is lowered already. */
  lemma LoweredStays(s: string)
    ensures Ascii(Lower(s)) ==> Lower(Lower(s)) == Lower(s)
    ensures Ascii(Fold(s)) ==> Lower(Fold(s)) == Fold(s)
  {
  }

  predicate DotFree(s: string) {
    '.' !in s
  }

  function Split(key: string): (segs: seq<string>)
    ensures |segs| >= 1
  {
    if key == "" then [""]
    else
      var rest := Split(key[1..]);
      if key[0] == '.' then [""] + rest else [[key[0]] + rest[0]] + rest[1..]
  }

  function LowerAll(segs: seq<string>): seq<string> {
    seq(|segs|, i requires 0 <= i < |segs| => Lower(segs[i]))
  }

  function FoldAll(segs: seq<string>): seq<string> {
    seq(|segs|, i requires 0 <= i < |segs| => Fold(segs[i]))
  }

  lemma {:induction false} SegmentsAreDotFree(key: string)
    ensures forall seg :: seg in Split(key) ==> DotFree(seg)
  {
    if key != "" {
      SegmentsAreDotFree(key[1..]);
      var rest := Split(key[1..]);
      assert rest[0] in rest;
      assert key[0] != '.' ==> DotFree([key[0]] + rest[0]);
    }
  }

  lemma {:induction false} SplitDotFree(key: string)
    requires DotFree(key)
    ensures Split(key) == [key]
  {
    if key != "" {
      SplitDotFree(key[1..]);
      assert key[0] in key && key == [key[0]] + key[1..];
    }
  }

  /** A path grows by one segment with a dot and a dot-free key. */
  lemma {:induction false} SplitAppend(path: string, key: string)
    requires DotFree(key)
    ensures Split(path + "." + key) == Split(path) + [key]
  {
    var whole := path + "." + key;
    if path == "" {
      assert whole[1..] == key;
      SplitDotFree(key);
    } else {
      assert whole[1..] == path[1..] + "." + key;
      SplitAppend(path[1..], key);
    }
  }

  /** A path is known by its segments. */
  lemma {:induction false} SplitIsInjective(a: string, b: string)
    requires Split(a) == Split(b)
    ensures a == b
  {
    if a == "" || b == "" {
      NotEmptySplit(a);
      NotEmptySplit(b);
    } else {
      var ra, rb := Split(a[1..]), Split(b[1..]);
      assert Split(a)[0] == (if a[0] == '.' then "" else [a[0]] + ra[0]);
      assert Split(b)[0] == (if b[0] == '.' then "" else [b[0]] + rb[0]);
      assert a[0] == b[0] by {
        if a[0] != '.' && b[0] != '.' {
          assert Split(a)[0][0] == a[0] && Split(b)[0][0] == b[0];
        }
      }
      assert Split(a)[1..] == (if a[0] == '.' then ra else ra[1..]);
      assert Split(b)[1..] == (if b[0] == '.' then rb else rb[1..]);
      if a[0] != '.' {
        assert ra[0] == Split(a)[0][1..] == Split(b)[0][1..] == rb[0];
        assert ra == [ra[0]] + ra[1..] && rb == [rb[0]] + rb[1..];
      }
      SplitIsInjective(a[1..], b[1..]);
      assert a == [a[0]] + a[1..] && b == [b[0]] + b[1..];
    }
  }

  lemma NotEmptySplit(a: string)
    ensures Split(a) == [""] <==> a == ""
  {
  }

  lemma LowerAllOf(seg: string, rest: seq<string>)
    ensures LowerAll([seg] + rest) == [Lower(seg)] + LowerAll(rest)
  {
    assert |LowerAll([seg] + rest)| == |rest| + 1;
  }

  lemma {:induction false} SplitLower(key: string)
    ensures Split(Lower(key)) == LowerAll(Split(key))
  {
    if key == "" {
      assert Lower("") == "" && LowerAll([""]) == [Lower("")];
    } else {
      var c, tail := key[0], key[1..];
      var rest := Split(tail);
      assert Lower(key)[1..] == Lower(tail) && Lower(key)[0] == LowerChar(c);
      SplitLower(tail);
      assert LowerChar(c) == '.' <==> c == '.';
      assert rest == [rest[0]] + rest[1..];
      LowerAllOf(rest[0], rest[1..]);
      if c == '.' {
        LowerAllOf("", rest);
        assert Lower("") == "";
      } else {
        LowerAllOf([c] + rest[0], rest[1..]);
        assert Lower([c] + rest[0]) == [LowerChar(c)] + Lower(rest[0]);
      }
    }
  }

  lemma LowerDotFree(s: string)
    ensures DotFree(Lower(s)) <==> DotFree(s)
  {
    if '.' in s {
      var i :| 0 <= i < |s| && s[i] == '.';
      assert Lower(s)[i] == '.';
    }
    if '.' in Lower(s) {
      var i :| 0 <= i < |s| && Lower(s)[i] == '.';
      assert s[i] == '.';
    }
  }

  lemma FoldDotFree(s: string)
    ensures DotFree(Fold(s)) <==> DotFree(s)
  {
    if '.' in s {
      var i :| 0 <= i < |s| && s[i] == '.';
      assert Fold(s)[i] == '.';
    }
    if '.' in Fold(s) {
      var i :| 0 <= i < |s| && Fold(s)[i] == '.';
      assert s[i] == '.';
    }
  }

  lemma LowerAppend(a: string, b: string)
    ensures Lower(a + b) == Lower(a) + Lower(b)
  {
  }
}
