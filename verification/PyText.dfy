/** The Python text primitives the platform relies on: `str.isspace`, `str.lstrip`, `str.strip`
    and `str.split` on a single separator. Text is a sequence of Unicode scalar values. */
module PyText {

  const FORM_FEED: char := '\U{000C}'

  /** The code points for which Python's `isspace` and argument-free `strip` answer yes, as
      inclusive ranges. */
  const SPACE_RANGES: seq<(char, char)> := [
    ('\U{0009}', '\U{000D}'), ('\U{001C}', '\U{0020}'), ('\U{0085}', '\U{0085}'),
    ('\U{00A0}', '\U{00A0}'), ('\U{1680}', '\U{1680}'), ('\U{2000}', '\U{200A}'),
    ('\U{2028}', '\U{2029}'), ('\U{202F}', '\U{202F}'), ('\U{205F}', '\U{205F}'),
    ('\U{3000}', '\U{3000}')]

  predicate InRanges(c: char, ranges: seq<(char, char)>) {
    ranges != [] && (ranges[0].0 <= c <= ranges[0].1 || InRanges(c, ranges[1..]))
  }

  predicate IsSpace(c: char) {
    InRanges(c, SPACE_RANGES)
  }

  lemma FormFeedIsSpace()
    ensures IsSpace(FORM_FEED)
  {
  }

  /** How many leading characters `lstrip` removes. */
  function Lead(s: string): (n: nat)
    ensures n <= |s|
    ensures forall i :: 0 <= i < n ==> IsSpace(s[i])
    ensures n < |s| ==> !IsSpace(s[n])
  {
    if s == "" || !IsSpace(s[0]) then 0 else 1 + Lead(s[1..])
  }

  /** One past the last character that is not whitespace; zero when there is none. */
  function Trail(s: string): (n: nat)
    ensures n <= |s|
    ensures forall i :: n <= i < |s| ==> IsSpace(s[i])
    ensures n > 0 ==> !IsSpace(s[n - 1])
  {
    if s == "" then 0
    else if !IsSpace(s[|s| - 1]) then |s|
    else Trail(s[..|s| - 1])
  }

  /** `str.strip()`. */
  function Strip(s: string): (r: string)
    ensures r == "" <==> forall i :: 0 <= i < |s| ==> IsSpace(s[i])
    ensures r != "" ==> Lead(s) < Trail(s) && r == s[Lead(s)..Trail(s)]
    ensures r != "" ==> !IsSpace(r[0]) && !IsSpace(r[|r| - 1])
  {
    if Lead(s) >= Trail(s) then
      assert Lead(s) == |s| || Lead(s) < Trail(s);
      ""
    else s[Lead(s)..Trail(s)]
  }

  /** `str.split(separator)` for a one-character separator: always at least one part. */
  function Split(s: string, separator: char): (parts: seq<string>)
    ensures |parts| >= 1
  {
    if s == "" then [""]
    else
      var rest := Split(s[1..], separator);
      if s[0] == separator then [""] + rest else [[s[0]] + rest[0]] + rest[1..]
  }

  function Count(s: string, c: char): nat {
    if s == "" then 0 else (if s[0] == c then 1 else 0) + Count(s[1..], c)
  }

  /** Where part `i` of a split begins in the text that was split. */
  function PartStart(parts: seq<string>, i: nat): nat
    requires i < |parts|
  {
    if i == 0 then 0 else |parts[0]| + 1 + PartStart(parts[1..], i - 1)
  }

  /** Moving the split one character to the right moves every part start by one; a separator
      in front also adds an empty first part. */
  lemma PartStartStep(s: string, c: char, i: nat)
    requires s != "" && i < |Split(s[1..], c)|
    ensures s[0] == c ==> PartStart(Split(s, c), i + 1) == PartStart(Split(s[1..], c), i) + 1
    ensures s[0] != c && i > 0 ==> PartStart(Split(s, c), i) == PartStart(Split(s[1..], c), i) + 1
  {
    var parts, rest := Split(s, c), Split(s[1..], c);
    if s[0] == c {
      assert parts[1..] == rest;
    } else {
      assert parts[1..] == rest[1..];
    }
  }

  /** A slice of a slice is a slice of the whole. */
  lemma SliceOfSlice(text: string, start: nat, end: nat, from: nat, to: nat)
    requires start <= end <= |text| && from <= to <= end - start
    ensures text[start..end][from..to] == text[start + from..start + to]
  {
    var page := text[start..end];
    forall i | from <= i < to ensures page[i] == text[start + i] {
    }
    assert |page[from..to]| == |text[start + from..start + to]|;
    forall i | 0 <= i < to - from ensures page[from..to][i] == text[start + from..start + to][i] {
      assert page[from..to][i] == page[from + i];
    }
  }

  /** A slice of the tail is the slice of the whole, one position later. */
  lemma TailSlice(s: string, at: nat, to: nat)
    requires s != "" && at <= to <= |s| - 1
    ensures s[1..][at..to] == s[at + 1..to + 1]
  {
    SliceOfSlice(s, 1, |s|, at, to);
  }

  /** Part `i` is an exact slice of the text and holds no separator. */
  predicate IsSlice(s: string, c: char, i: nat) {
    var parts := Split(s, c);
    i < |parts| &&
    var at := PartStart(parts, i);
    at + |parts[i]| <= |s| && s[at..at + |parts[i]|] == parts[i] && c !in parts[i]
  }

  lemma SeparatorParts(s: string, c: char)
    requires s != ""
    ensures s[0] == c ==> Split(s, c) == [""] + Split(s[1..], c)
    ensures s[0] != c ==> Split(s, c) == [[s[0]] + Split(s[1..], c)[0]] + Split(s[1..], c)[1..]
    ensures PartStart(Split(s, c), 0) == 0 && PartStart(Split(s[1..], c), 0) == 0
  {
  }

  lemma HeadSlice(s: string, part: string)
    requires s != "" && |part| <= |s| - 1 && s[1..][0..|part|] == part
    ensures s[0..1 + |part|] == [s[0]] + part
  {
    assert s[0..1 + |part|] == [s[0]] + s[1..1 + |part|];
  }

  lemma SliceAfterSeparator(s: string, c: char, i: nat)
    requires s != "" && s[0] == c && IsSlice(s[1..], c, i)
    ensures IsSlice(s, c, i + 1)
  {
    var rest := Split(s[1..], c);
    SeparatorParts(s, c);
    PartStartStep(s, c, i);
    hide Split, PartStart;
    assert Split(s, c)[i + 1] == rest[i];
    TailSlice(s, PartStart(rest, i), PartStart(rest, i) + |rest[i]|);
  }

  lemma SliceAfterOther(s: string, c: char, i: nat)
    requires s != "" && s[0] != c && IsSlice(s[1..], c, i)
    ensures IsSlice(s, c, i)
  {
    var rest := Split(s[1..], c);
    SeparatorParts(s, c);
    PartStartStep(s, c, i);
    hide Split, PartStart;
    if i == 0 {
      HeadSlice(s, rest[0]);
    } else {
      assert Split(s, c)[i] == rest[i];
      TailSlice(s, PartStart(rest, i), PartStart(rest, i) + |rest[i]|);
    }
  }

  /** Each part is an exact slice of the text and holds no separator. */
  lemma {:induction false} SplitSlice(s: string, c: char, i: nat)
    requires i < |Split(s, c)|
    ensures var parts := Split(s, c); var at := PartStart(parts, i);
            at + |parts[i]| <= |s| && s[at..at + |parts[i]|] == parts[i]
    ensures c !in Split(s, c)[i]
  {
    assert IsSlice(s, c, i) by {
      EveryPartIsASlice(s, c, i);
    }
  }

  lemma {:induction false} EveryPartIsASlice(s: string, c: char, i: nat)
    requires i < |Split(s, c)|
    ensures IsSlice(s, c, i)
  {
    if s != "" {
      if s[0] != c {
        hide IsSlice;
        EveryPartIsASlice(s[1..], c, i);
        SliceAfterOther(s, c, i);
      } else if i > 0 {
        hide IsSlice;
        EveryPartIsASlice(s[1..], c, i - 1);
        SliceAfterSeparator(s, c, i - 1);
      }
    }
  }

  /** As many separators come before part `i` as there are parts before it. */
  lemma {:induction false} SplitCount(s: string, c: char, i: nat)
    requires i < |Split(s, c)| && PartStart(Split(s, c), i) <= |s|
    ensures Count(s[..PartStart(Split(s, c), i)], c) == i
  {
    if s != "" && i > 0 {
      var j := if s[0] == c then i - 1 else i;
      PartStartStep(s, c, j);
      SplitSlice(s[1..], c, j);
      SplitCount(s[1..], c, j);
      var at := PartStart(Split(s[1..], c), j);
      TailSlice(s, 0, at);
      assert s[..at + 1][1..] == s[1..at + 1];
    }
  }

  /** Every character other than a separator belongs to a part. */
  lemma {:induction false} SplitCovers(s: string, c: char, p: nat) returns (i: nat)
    requires p < |s| && s[p] != c
    ensures i < |Split(s, c)|
    ensures PartStart(Split(s, c), i) <= p < PartStart(Split(s, c), i) + |Split(s, c)[i]|
  {
    var parts, rest := Split(s, c), Split(s[1..], c);
    if p == 0 {
      i := 0;
    } else {
      var j := SplitCovers(s[1..], c, p - 1);
      if s[0] == c {
        i := j + 1;
        assert parts[1..] == rest;
      } else {
        i := j;
        assert parts[1..] == rest[1..];
      }
    }
  }

  lemma {:induction false} CountSplit(a: string, b: string, c: char)
    ensures Count(a + b, c) == Count(a, c) + Count(b, c)
  {
    if a == "" {
      assert a + b == b;
    } else {
      assert (a + b)[1..] == a[1..] + b;
      CountSplit(a[1..], b, c);
    }
  }

  lemma {:induction false} CountAbsent(s: string, c: char)
    requires c !in s
    ensures Count(s, c) == 0
  {
    if s != "" {
      CountAbsent(s[1..], c);
    }
  }
}
