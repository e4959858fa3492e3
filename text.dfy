/**
 * ASCII string helpers standing in for Python's `str` methods:
 * `lower`, `upper`, `in`, `strip`, `split`, `ljust` and centred formatting.
 */
module Text {

  predicate IsUpperAscii(c: char) { 'A' <= c <= 'Z' }
  predicate IsLowerAscii(c: char) { 'a' <= c <= 'z' }

  function LowerChar(c: char): (r: char)
    ensures !IsUpperAscii(r)
    ensures !IsUpperAscii(c) ==> r == c
  {
    if IsUpperAscii(c) then (c as int + 32) as char else c
  }

  function UpperChar(c: char): (r: char)
    ensures !IsLowerAscii(r)
    ensures !IsLowerAscii(c) ==> r == c
  {
    if IsLowerAscii(c) then (c as int - 32) as char else c
  }

  /** `s.lower()` on ASCII letters. */
  function Lower(s: string): (r: string)
    ensures |r| == |s|
    ensures forall i :: 0 <= i < |s| ==> r[i] == LowerChar(s[i])
  {
    if s == [] then [] else [LowerChar(s[0])] + Lower(s[1..])
  }

  /** `s.upper()` on ASCII letters. */
  function Upper(s: string): (r: string)
    ensures |r| == |s|
    ensures forall i :: 0 <= i < |s| ==> r[i] == UpperChar(s[i])
  {
    if s == [] then [] else [UpperChar(s[0])] + Upper(s[1..])
  }

  /** `needle` occurs in `hay` starting at index `i`. */
  predicate OccursAt(hay: string, needle: string, i: int) {
    0 <= i && i + |needle| <= |hay| && hay[i..i + |needle|] == needle
  }

  /** Python's `needle in hay` for strings, scanning from the left. */
  predicate Contains(hay: string, needle: string)
    decreases |hay|
  {
    needle <= hay || (hay != [] && Contains(hay[1..], needle))
  }

  /** The scan agrees with the definition of a substring: some position holds `needle`. */
  lemma {:induction false} ContainsIffOccurs(hay: string, needle: string)
    ensures Contains(hay, needle) <==> exists i :: OccursAt(hay, needle, i)
    decreases |hay|
  {
    if needle <= hay {
      assert OccursAt(hay, needle, 0);
    } else if hay != [] {
      ContainsIffOccurs(hay[1..], needle);
      if Contains(hay[1..], needle) {
        var i :| OccursAt(hay[1..], needle, i);
        assert hay[i + 1..i + 1 + |needle|] == hay[1..][i..i + |needle|];
        assert OccursAt(hay, needle, i + 1);
      }
      if exists i :: OccursAt(hay, needle, i) {
        var i :| OccursAt(hay, needle, i);
        if i > 0 {
          assert hay[1..][i - 1..i - 1 + |needle|] == hay[i..i + |needle|];
          assert OccursAt(hay[1..], needle, i - 1);
        }
      }
    }
  }

  /** The whitespace characters that Python's `str.strip()` removes, restricted to ASCII. */
  predicate IsSpace(c: char) {
    c == ' ' || ('\t' <= c <= '\r') || ('\U{1C}' <= c <= '\U{1F}')
  }

  function TrimLeft(s: string): (r: string)
    ensures |r| <= |s| && r == s[|s| - |r|..]
    ensures r != [] ==> !IsSpace(r[0])
    ensures forall i :: 0 <= i < |s| - |r| ==> IsSpace(s[i])
  {
    if s != [] && IsSpace(s[0]) then TrimLeft(s[1..]) else s
  }

  function TrimRight(s: string): (r: string)
    ensures |r| <= |s| && r == s[..|r|]
    ensures r != [] ==> !IsSpace(r[|r| - 1])
    ensures forall i :: |r| <= i < |s| ==> IsSpace(s[i])
  {
    if s != [] && IsSpace(s[|s| - 1]) then TrimRight(s[..|s| - 1]) else s
  }

  /** `r` occurs in `s` at `i`, and every character of `s` before it and after it is whitespace. */
  predicate TrimmedAt(s: string, r: string, i: int) {
    OccursAt(s, r, i)
    && (forall j :: 0 <= j < i ==> IsSpace(s[j]))
    && (forall j :: i + |r| <= j < |s| ==> IsSpace(s[j]))
  }

  /** `s.strip()`: the longest slice of `s` that neither starts nor ends with whitespace. */
  function Strip(s: string): (r: string)
    ensures exists i :: TrimmedAt(s, r, i)
    ensures r != [] ==> !IsSpace(r[0]) && !IsSpace(r[|r| - 1])
    ensures (forall i :: 0 <= i < |s| ==> IsSpace(s[i])) ==> r == []
  {
    var t := TrimLeft(s);
    var r := TrimRight(t);
    assert r == s[|s| - |t|..|s| - |t| + |r|];
    assert forall j :: |s| - |t| + |r| <= j < |s| ==> IsSpace(s[j]) by {
      forall j | |s| - |t| + |r| <= j < |s|
        ensures IsSpace(s[j])
      {
        assert s[j] == t[j - (|s| - |t|)];
      }
    }
    assert TrimmedAt(s, r, |s| - |t|);
    r
  }

  function Repeat(c: char, n: nat): (r: string)
    ensures |r| == n && forall i :: 0 <= i < n ==> r[i] == c
  {
    if n == 0 then [] else [c] + Repeat(c, n - 1)
  }

  /** Python's `f"{s:<{w}}"`: `s` padded on the right to width `w`, never truncated. */
  function PadRight(s: string, w: int): (r: string)
    ensures s <= r
    ensures |r| == if |s| >= w then |s| else w
    ensures forall i :: |s| <= i < |r| ==> r[i] == ' '
  {
    if |s| >= w then s else s + Repeat(' ', w - |s|)
  }

  /**
   * Python's `f"{s:^{w}}"`: `s` centred in width `w`, never truncated; when the padding is odd
   * the extra space goes on the right.
   */
  function PadCenter(s: string, w: int): (r: string)
    ensures |r| == if |s| >= w then |s| else w
    ensures |s| >= w ==> r == s
    ensures |s| < w ==>
      forall i :: 0 <= i < w && (i < (w - |s|) / 2 || (w - |s|) / 2 + |s| <= i) ==> r[i] == ' '
  {
    if |s| >= w then s
    else
      var pad := w - |s|;
      Repeat(' ', pad / 2) + s + Repeat(' ', pad - pad / 2)
  }

  /** The centred text sits after the left padding. */
  lemma PadCenterMiddle(s: string, w: int)
    requires |s| <= w
    ensures PadCenter(s, w)[(w - |s|) / 2..(w - |s|) / 2 + |s|] == s
  {
    var p := (w - |s|) / 2;
    if |s| < w {
      var r := Repeat(' ', p) + s + Repeat(' ', w - |s| - p);
      assert forall k :: 0 <= k < |s| ==> r[p + k] == s[k];
    }
  }

  /** Python's `s.split(sep)` for a one-character separator: never empty, pieces contain no `sep`. */
  function Split(s: string, sep: char): (r: seq<string>)
    ensures |r| >= 1
    ensures forall i :: 0 <= i < |r| ==> sep !in r[i]
    decreases |s|
  {
    if s == [] then [""]
    else
      var rest := Split(s[1..], sep);
      if s[0] == sep then [""] + rest
      else [[s[0]] + rest[0]] + rest[1..]
  }

  /** `sep.join(pieces)`. */
  function Join(pieces: seq<string>, sep: char): string
    decreases |pieces|
  {
    if pieces == [] then ""
    else if |pieces| == 1 then pieces[0]
    else pieces[0] + [sep] + Join(pieces[1..], sep)
  }

  /** Splitting loses nothing: joining the pieces with the separator gives the string back. */
  lemma {:induction false} JoinSplit(s: string, sep: char)
    ensures Join(Split(s, sep), sep) == s
    decreases |s|
  {
    if s != [] {
      var rest := Split(s[1..], sep);
      JoinSplit(s[1..], sep);
      if s[0] == sep {
        assert Split(s, sep) == [""] + rest;
        assert ([""] + rest)[1..] == rest;
        assert s == [s[0]] + s[1..];
      } else {
        var r := [[s[0]] + rest[0]] + rest[1..];
        assert r[1..] == rest[1..];
        if |rest| == 1 {
          assert Join(rest, sep) == rest[0];
        } else {
          assert Join(rest, sep) == rest[0] + [sep] + Join(rest[1..], sep);
        }
        assert s == [s[0]] + s[1..];
      }
    }
  }
}
