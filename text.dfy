/** The handful of Python `str` operations the query optimizer relies on:
    `startswith`, `in`, `split`, `strip` and `lower`, with the meaning
    CPython gives them, stated over `seq<char>`. */
module Text {
  import opened Wrappers

  /** `s.startswith(prefix)` */
  predicate StartsWith(s: string, prefix: string) {
    |prefix| <= |s| && s[..|prefix|] == prefix
  }

  /** `sub` occurs in `s` starting at index `k`. */
  predicate OccursAt(s: string, sub: string, k: int) {
    0 <= k && k + |sub| <= |s| && s[k..k + |sub|] == sub
  }

  lemma OccursAtTail(s: string, sub: string, k: nat)
    requires |s| > 0
    ensures OccursAt(s, sub, k + 1) <==> OccursAt(s[1..], sub, k)
  {
    if k + 1 + |sub| <= |s| {
      assert s[k + 1..k + 1 + |sub|] == s[1..][k..k + |sub|];
    }
  }

  lemma OccursAtStart(s: string, sub: string)
    ensures OccursAt(s, sub, 0) <==> StartsWith(s, sub)
  {
    if |sub| <= |s| {
      assert s[0..|sub|] == s[..|sub|];
    }
  }

  /** `s.find(sub)`, with -1 written as None: the least index where `sub` occurs. */
  function FindFirst(s: string, sub: string): (r: Option<nat>)
    ensures r.Some? ==> OccursAt(s, sub, r.value)
    ensures r.Some? ==> forall k :: 0 <= k < r.value ==> !OccursAt(s, sub, k)
    ensures r.None? ==> forall k :: !OccursAt(s, sub, k)
    decreases |s|
  {
    if StartsWith(s, sub) then
      OccursAtStart(s, sub);
      Some(0)
    else if |s| == 0 then
      None
    else
      var tail := FindFirst(s[1..], sub);
      if tail.None? then
        assert forall k :: !OccursAt(s, sub, k) by {
          forall k ensures !OccursAt(s, sub, k) {
            if k == 0 { OccursAtStart(s, sub); } else if k > 0 { OccursAtTail(s, sub, k - 1); }
          }
        }
        None
      else
        assert forall k :: 0 <= k < tail.value + 1 ==> !OccursAt(s, sub, k) by {
          forall k | 0 <= k < tail.value + 1 ensures !OccursAt(s, sub, k) {
            if k == 0 { OccursAtStart(s, sub); } else { OccursAtTail(s, sub, k - 1); }
          }
        }
        OccursAtTail(s, sub, tail.value);
        Some(tail.value + 1)
  }

  /** `sub in s` */
  predicate Contains(s: string, sub: string) {
    FindFirst(s, sub).Some?
  }

  lemma ContainsIff(s: string, sub: string)
    ensures Contains(s, sub) <==> exists k :: OccursAt(s, sub, k)
  {
  }

  /** `b` occurs in `a + b + c` right after `a`. */
  lemma OccursBetween(a: string, b: string, c: string)
    ensures OccursAt(a + b + c, b, |a|)
  {
    assert (a + b + c)[|a|..|a| + |b|] == b;
  }

  /** An occurrence stays one when text is put around it. */
  lemma OccursWithin(s: string, sub: string, k: int, pre: string, post: string)
    requires OccursAt(s, sub, k)
    ensures OccursAt(pre + (s + post), sub, |pre| + k)
  {
    assert (pre + (s + post))[|pre| + k..|pre| + k + |sub|] == s[k..k + |sub|];
  }

  /** An occurrence, character by character. */
  lemma OccursAtChars(s: string, sub: string, k: int)
    requires OccursAt(s, sub, k)
    ensures forall i :: 0 <= i < |sub| ==> s[k + i] == sub[i]
  {
    forall i | 0 <= i < |sub| ensures s[k + i] == sub[i] {
      assert s[k..k + |sub|][i] == s[k + i];
    }
  }

  /** An occurrence inside a prefix of `s` is an occurrence in `s` that ends
      within the prefix. */
  lemma OccursInPrefix(s: string, sub: string, m: nat, k: int)
    requires m <= |s|
    ensures OccursAt(s[..m], sub, k) <==> OccursAt(s, sub, k) && k + |sub| <= m
  {
    if 0 <= k && k + |sub| <= m {
      assert s[..m][k..k + |sub|] == s[k..k + |sub|];
    }
  }

  /** An occurrence of a text that starts with `sep` is an occurrence of `sep`. */
  lemma OccursOfPrefix(s: string, big: string, sep: string, m: int)
    requires StartsWith(big, sep) && OccursAt(s, big, m)
    ensures OccursAt(s, sep, m)
  {
    assert s[m..m + |sep|] == s[m..m + |big|][..|sep|];
  }

  /** The text of `s` before the first occurrence of `sep`, or all of `s`. */
  function BeforeFirst(s: string, sep: string): (r: string)
    ensures StartsWith(s, r)
    ensures !Contains(r, sep) || |sep| == 0
    ensures |r| < |s| ==> OccursAt(s, sep, |r|)
  {
    match FindFirst(s, sep)
    case None => s
    case Some(i) =>
      assert forall k :: OccursAt(s[..i], sep, k) ==> OccursAt(s, sep, k) && k + |sep| <= i by {
        forall k | OccursAt(s[..i], sep, k) ensures OccursAt(s, sep, k) && k + |sep| <= i {
          OccursInPrefix(s, sep, i, k);
        }
      }
      s[..i]
  }

  /** Cutting at the first `big`, then at the first `sep`, where `big` starts
      with `sep`, is cutting at the first `sep` -- unless an occurrence of
      `sep` straddles the start of the first `big`. */
  lemma BeforeFirstNested(s: string, big: string, sep: string)
    requires |sep| > 0 && StartsWith(big, sep)
    requires forall f, m :: OccursAt(s, sep, f) && OccursAt(s, big, m) ==> !(f < m < f + |sep|)
    ensures BeforeFirst(BeforeFirst(s, big), sep) == BeforeFirst(s, sep)
  {
    match FindFirst(s, big)
    case None =>
    case Some(m) =>
      var t := s[..m];
      assert BeforeFirst(s, big) == t;
      OccursOfPrefix(s, big, sep, m);
      var f := FindFirst(s, sep).value;
      assert f <= m;
      forall k | OccursAt(t, sep, k) ensures k >= f && OccursAt(s, sep, k) {
        OccursInPrefix(s, sep, m, k);
      }
      if f + |sep| <= m {
        OccursInPrefix(s, sep, m, f);
        assert FindFirst(t, sep) == Some(f);
        assert t[..f] == s[..f];
      } else {
        assert f == m;
        assert FindFirst(t, sep) == None;
      }
  }

  /** `s.split(sep)` for a non-empty separator. */
  function Split(s: string, sep: string): (parts: seq<string>)
    requires |sep| > 0
    ensures |parts| >= 1
    ensures parts[0] == BeforeFirst(s, sep)
    ensures Contains(s, sep) <==> |parts| >= 2
    decreases |s|
  {
    match FindFirst(s, sep)
    case None => [s]
    case Some(i) => [s[..i]] + Split(s[i + |sep|..], sep)
  }

  /** `sep.join(parts)` */
  function Join(parts: seq<string>, sep: string): string {
    if |parts| == 0 then ""
    else if |parts| == 1 then parts[0]
    else parts[0] + sep + Join(parts[1..], sep)
  }

  /** The text around an occurrence of the separator. */
  lemma Around(s: string, sep: string, i: nat)
    requires OccursAt(s, sep, i)
    ensures s == s[..i] + sep + s[i + |sep|..]
  {
  }

  /** One step of a split: the text before the first separator, then the
      split of what follows it. */
  lemma SplitStep(s: string, sep: string, i: nat)
    requires |sep| > 0 && FindFirst(s, sep) == Some(i)
    ensures i + |sep| <= |s| && s == s[..i] + sep + s[i + |sep|..]
    ensures Split(s, sep) == [s[..i]] + Split(s[i + |sep|..], sep)
  {
    Around(s, sep, i);
  }

  /** Joining the pieces of a split with the separator gives back the text. */
  lemma {:induction false} SplitJoin(s: string, sep: string)
    requires |sep| > 0
    ensures Join(Split(s, sep), sep) == s
    decreases |s|
  {
    match FindFirst(s, sep)
    case None =>
    case Some(i) =>
      var rest := s[i + |sep|..];
      SplitStep(s, sep, i);
      SplitJoin(rest, sep);
      var parts := Split(s, sep);
      assert parts[0] == s[..i] && parts[1..] == Split(rest, sep);
      assert Join(parts, sep) == parts[0] + sep + Join(parts[1..], sep);
  }

  /** No piece of a split contains the separator. */
  lemma {:induction false} SplitPiecesFree(s: string, sep: string)
    requires |sep| > 0
    ensures forall j :: 0 <= j < |Split(s, sep)| ==> !Contains(Split(s, sep)[j], sep)
    decreases |s|
  {
    match FindFirst(s, sep)
    case None =>
    case Some(i) =>
      var rest := s[i + |sep|..];
      SplitStep(s, sep, i);
      SplitPiecesFree(rest, sep);
      var parts := Split(s, sep);
      forall j | 0 <= j < |parts| ensures !Contains(parts[j], sep) {
        if j > 0 {
          assert parts[j] == Split(rest, sep)[j - 1];
        }
      }
  }

  /** The second piece of a split: the text after the first separator, up
      to the next one. */
  lemma SplitSecond(s: string, sep: string)
    requires |sep| > 0 && Contains(s, sep)
    ensures Split(s, sep)[1] == BeforeFirst(s[FindFirst(s, sep).value + |sep|..], sep)
  {
    match FindFirst(s, sep)
    case Some(i) =>
      var rest := s[i + |sep|..];
      SplitStep(s, sep, i);
      assert Split(s, sep)[1] == Split(rest, sep)[0];
  }

  lemma ContainsSelf(s: string)
    ensures Contains(s, s)
  {
    assert OccursAt(s, s, 0);
    ContainsIff(s, s);
  }

  /** `''.join(parts)` */
  function Concat(parts: seq<string>): string {
    if |parts| == 0 then "" else parts[0] + Concat(parts[1..])
  }

  lemma {:induction false} ConcatSplit(parts: seq<string>, i: nat)
    requires i < |parts|
    ensures Concat(parts) == Concat(parts[..i]) + (parts[i] + Concat(parts[i + 1..]))
  {
    if i > 0 {
      ConcatSplit(parts[1..], i - 1);
      assert parts[1..][..i - 1] == parts[1..i];
      assert parts[..i] == [parts[0]] + parts[1..i];
      assert parts[1..][i..] == parts[i + 1..];
      assert Concat(parts[..i]) == parts[0] + Concat(parts[1..i]);
    }
  }

  /** What occurs in one of the parts occurs in their concatenation. */
  lemma PartContained(parts: seq<string>, i: nat, sub: string)
    requires i < |parts| && Contains(parts[i], sub)
    ensures Contains(Concat(parts), sub)
  {
    var k := FindFirst(parts[i], sub).value;
    ConcatSplit(parts, i);
    OccursWithin(parts[i], sub, k, Concat(parts[..i]), Concat(parts[i + 1..]));
    ContainsIff(Concat(parts), sub);
  }

  /** Each part is contained in the concatenation. */
  lemma PartInConcat(parts: seq<string>, i: nat)
    requires i < |parts|
    ensures Contains(Concat(parts), parts[i])
  {
    ContainsSelf(parts[i]);
    PartContained(parts, i, parts[i]);
  }

  /** Python's `str.isspace()`: the characters `str.strip()` removes. */
  predicate IsSpace(c: char) {
    ('\t' <= c <= '\r') || ('\U{1C}' <= c <= ' ')
    || c == '\U{85}' || c == '\U{A0}' || c == '\U{1680}'
    || ('\U{2000}' <= c <= '\U{200A}') || c == '\U{2028}' || c == '\U{2029}'
    || c == '\U{202F}' || c == '\U{205F}' || c == '\U{3000}'
  }

  function TrimStart(s: string): (r: string)
    ensures |r| <= |s| && r == s[|s| - |r|..]
    ensures forall k :: 0 <= k < |s| - |r| ==> IsSpace(s[k])
    ensures r == [] || !IsSpace(r[0])
  {
    if |s| > 0 && IsSpace(s[0]) then
      var r := TrimStart(s[1..]);
      assert forall k :: 1 <= k < |s| - |r| ==> s[k] == s[1..][k - 1];
      r
    else s
  }

  function TrimEnd(s: string): (r: string)
    ensures |r| <= |s| && r == s[..|r|]
    ensures forall k :: |r| <= k < |s| ==> IsSpace(s[k])
    ensures r == [] || !IsSpace(r[|r| - 1])
  {
    if |s| > 0 && IsSpace(s[|s| - 1]) then
      var r := TrimEnd(s[..|s| - 1]);
      assert forall k :: |r| <= k < |s| - 1 ==> s[k] == s[..|s| - 1][k];
      r
    else s
  }

  /** `s.strip()`: `s` without its leading and trailing whitespace. */
  function Strip(s: string): (r: string)
    ensures r == [] || (!IsSpace(r[0]) && !IsSpace(r[|r| - 1]))
    ensures exists i :: StrippedAt(s, r, i)
  {
    var t := TrimStart(s);
    var r := TrimEnd(t);
    TrimBoth(s, t, r);
    r
  }

  lemma TrimBoth(s: string, t: string, r: string)
    requires |t| <= |s| && t == s[|s| - |t|..]
    requires forall k :: 0 <= k < |s| - |t| ==> IsSpace(s[k])
    requires t == [] || !IsSpace(t[0])
    requires |r| <= |t| && r == t[..|r|]
    requires forall k :: |r| <= k < |t| ==> IsSpace(t[k])
    requires r == [] || !IsSpace(r[|r| - 1])
    ensures r == [] || (!IsSpace(r[0]) && !IsSpace(r[|r| - 1]))
    ensures StrippedAt(s, r, |s| - |t|)
  {
    var i := |s| - |t|;
    assert r == [] || r[0] == t[0];
    assert r == s[i..i + |r|];
    forall k | i + |r| <= k < |s| ensures IsSpace(s[k]) {
      assert s[k] == t[k - i];
    }
  }

  /** `r` is the slice of `s` at `i` and everything around it is whitespace. */
  predicate StrippedAt(s: string, r: string, i: int) {
    && 0 <= i && i + |r| <= |s| && r == s[i..i + |r|]
    && (forall k :: 0 <= k < i ==> IsSpace(s[k]))
    && (forall k :: i + |r| <= k < |s| ==> IsSpace(s[k]))
  }

  /** Stripping a text that has no surrounding whitespace leaves it as it is. */
  lemma StripNoWhitespace(s: string)
    requires s == [] || (!IsSpace(s[0]) && !IsSpace(s[|s| - 1]))
    ensures Strip(s) == s
  {
  }

  /** `c.lower()` for an ASCII letter; every other character is kept. */
  function LowerChar(c: char): char {
    if 'A' <= c <= 'Z' then (c as int + 32) as char else c
  }

  /** `s.lower()`, restricted to the ASCII upper-case letters. */
  function Lower(s: string): (r: string)
    ensures |r| == |s|
    ensures forall i :: 0 <= i < |s| ==> r[i] == LowerChar(s[i])
  {
    seq(|s|, i requires 0 <= i < |s| => LowerChar(s[i]))
  }
}
