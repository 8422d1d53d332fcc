/** The JavaScript string built-ins the bot relies on: `String.prototype.includes`,
    `String.prototype.split` on a one-character separator, indexing the resulting
    array, and the conversion of `undefined` to text when it is concatenated. */
module Strings {
  import opened Wrappers

  /** `hay.includes(needle)`: the needle occurs somewhere in the haystack
      (the empty needle occurs everywhere). */
  predicate Contains(hay: string, needle: string)
    decreases |hay|
  {
    needle <= hay || (|hay| > 0 && Contains(hay[1..], needle))
  }

  /** Reference meaning of a substring occurrence at position `i`. */
  ghost predicate OccursAt(hay: string, needle: string, i: int)
  {
    0 <= i && i + |needle| <= |hay| && hay[i..i + |needle|] == needle
  }

  /** `Contains` is exactly "occurs at some position". */
  lemma {:induction false} ContainsIffOccurs(hay: string, needle: string)
    ensures Contains(hay, needle) <==> exists i :: OccursAt(hay, needle, i)
    decreases |hay|
  {
    if needle <= hay {
      assert OccursAt(hay, needle, 0);
    } else if |hay| == 0 {
      assert !OccursAt(hay, needle, 0);
    } else {
      ContainsIffOccurs(hay[1..], needle);
      forall i | OccursAt(hay[1..], needle, i) ensures OccursAt(hay, needle, i + 1) {
        assert hay[1..][i..i + |needle|] == hay[i + 1..i + 1 + |needle|];
      }
      assert !OccursAt(hay, needle, 0);
      forall i | OccursAt(hay, needle, i) ensures OccursAt(hay[1..], needle, i - 1) {
        assert hay[1..][i - 1..i - 1 + |needle|] == hay[i..i + |needle|];
      }
    }
  }

  /** `s.split(sep)` for a one-character separator: the maximal separator-free
      pieces, in order; an empty string splits into one empty piece. */
  function Split(s: string, sep: char): (parts: seq<string>)
    ensures |parts| >= 1
    ensures forall k :: 0 <= k < |parts| ==> sep !in parts[k]
    decreases |s|
  {
    if |s| == 0 then [""]
    else
      var rest := Split(s[1..], sep);
      if s[0] == sep then [""] + rest
      else [[s[0]] + rest[0]] + rest[1..]
  }

  /** `parts.join(sep)`: the inverse of `Split`. */
  function Join(parts: seq<string>, sep: char): string
    requires |parts| >= 1
    decreases |parts|
  {
    if |parts| == 1 then parts[0] else parts[0] + [sep] + Join(parts[1..], sep)
  }

  /** Splitting loses nothing: joining the pieces gives back the string. */
  lemma {:induction false} JoinSplit(s: string, sep: char)
    ensures Join(Split(s, sep), sep) == s
    decreases |s|
  {
    if |s| > 0 {
      var rest := Split(s[1..], sep);
      JoinSplit(s[1..], sep);
      if s[0] == sep {
        assert Split(s, sep)[1..] == rest;
      } else if |rest| == 1 {
        assert s == [s[0]] + s[1..];
      } else {
        assert Split(s, sep)[1..] == rest[1..];
        assert s == [s[0]] + s[1..];
      }
    }
  }

  /** A separator-free string is a single piece. */
  lemma {:induction false} SplitSeparatorFree(a: string, sep: char)
    requires sep !in a
    ensures Split(a, sep) == [a]
    decreases |a|
  {
    if |a| > 0 {
      SplitSeparatorFree(a[1..], sep);
      assert a == [a[0]] + a[1..];
    }
  }

  /** A separator-free prefix followed by the separator is split off as the first piece. */
  lemma {:induction false} SplitAfterPiece(a: string, sep: char, b: string)
    requires sep !in a
    ensures Split(a + [sep] + b, sep) == [a] + Split(b, sep)
    decreases |a|
  {
    var s := a + [sep] + b;
    if |a| == 0 {
      assert s[1..] == b;
    } else {
      assert s[1..] == a[1..] + [sep] + b;
      SplitAfterPiece(a[1..], sep, b);
      assert [s[0]] + a[1..] == a;
    }
  }

  /** Joining separator-free pieces and splitting again gives back the pieces. */
  lemma {:induction false} SplitJoin(parts: seq<string>, sep: char)
    requires |parts| >= 1
    requires forall k :: 0 <= k < |parts| ==> sep !in parts[k]
    ensures Split(Join(parts, sep), sep) == parts
    decreases |parts|
  {
    if |parts| == 1 {
      SplitSeparatorFree(parts[0], sep);
    } else {
      SplitJoin(parts[1..], sep);
      SplitAfterPiece(parts[0], sep, Join(parts[1..], sep));
      assert [parts[0]] + parts[1..] == parts;
    }
  }

  /** JavaScript array indexing: `a[k]` is `undefined` past the end. */
  function At(a: seq<string>, k: nat): Option<string>
  {
    if k < |a| then Some(a[k]) else None
  }

  /** `s.split('.')[1]`: the second dot-separated segment, if there is one. */
  function SecondSegment(s: string): Option<string>
  {
    At(Split(s, '.'), 1)
  }

  /** `String(v)` as used by `+`: `undefined` prints as the text "undefined". */
  function JsString(v: Option<string>): string
  {
    match v
    case Some(s) => s
    case None => "undefined"
  }

  /** A dot-free tag joined by one dot to a dot-free code yields that code as its
      second segment, and nothing else. */
  lemma TaggedSecondSegment(tag: string, code: string)
    requires '.' !in tag && '.' !in code
    ensures SecondSegment(tag + "." + code) == Some(code)
  {
    SplitJoin([tag, code], '.');
    assert Join([tag, code], '.') == tag + "." + code;
  }

  /** Without a dot there is no second segment (JavaScript yields `undefined`). */
  lemma SecondSegmentNeedsDot(s: string)
    ensures SecondSegment(s).Some? <==> '.' in s
  {
    if '.' in s {
      JoinSplit(s, '.');
    } else {
      SplitSeparatorFree(s, '.');
    }
  }
}
