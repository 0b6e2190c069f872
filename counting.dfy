/** Global matches of a one-code-unit class, as `text.match(/[…]/g)` and
    `text.replace(/\s/g, '')` compute them, and the arithmetic of their
    lengths. */
module Counting {
  import opened CharClasses

  datatype Option<T> = None | Some(value: T)

  /** The code units of `s` for which `p` holds, in their original order. */
  function Keep(s: Text, p: CodeUnit -> bool): (r: Text)
    ensures |r| <= |s|
    ensures forall i :: 0 <= i < |r| ==> p(r[i])
    decreases |s|
  {
    if s == [] then []
    else if p(s[0]) then [s[0]] + Keep(s[1..], p)
    else Keep(s[1..], p)
  }

  /** `text.replace(/\s/g, '')`: the text with every whitespace code unit
      deleted. What remains is exactly the non-whitespace code units, and there
      are as many fewer of them as there were whitespace code units. */
  function RemoveWhitespace(s: Text): (r: Text)
    ensures forall i :: 0 <= i < |r| ==> IsNotWhitespace(r[i])
    ensures |r| + |Keep(s, IsWhitespace)| == |s|
  {
    KeepPartition(s, IsNotWhitespace, IsWhitespace);
    Keep(s, IsNotWhitespace)
  }

  /** `text.match(re)` for a global class `re`: `null` (here `None`) when no
      code unit matches, otherwise the array of matched code units. */
  function MatchAll(s: Text, p: CodeUnit -> bool): (r: Option<Text>)
    ensures r.None? <==> forall i :: 0 <= i < |s| ==> !p(s[i])
    ensures r.Some? ==> r.value != [] && r.value == Keep(s, p)
  {
    var m := Keep(s, p);
    KeepEmpty(s, p);
    if m == [] then None else Some(m)
  }

  /** `(text.match(re) || []).length`: the `null` of a text without a match
      counts as zero, so the count is always the number of matching code
      units, and it is zero exactly when nothing matches. */
  function MatchCount(s: Text, p: CodeUnit -> bool): (n: nat)
    ensures n == |Keep(s, p)|
    ensures n == 0 <==> forall i :: 0 <= i < |s| ==> !p(s[i])
  {
    match MatchAll(s, p)
    case None => 0
    case Some(m) => |m|
  }

  /** The pieces of a split, joined back together in order. */
  function Concat(pieces: seq<Text>): Text
    decreases |pieces|
  {
    if pieces == [] then [] else pieces[0] + Concat(pieces[1..])
  }

  lemma ConcatCons(piece: Text, rest: seq<Text>)
    ensures Concat([piece] + rest) == piece + Concat(rest)
  {
    assert ([piece] + rest)[1..] == rest;
  }

  /** Keeping distributes over concatenation. */
  lemma {:induction false} KeepAppend(a: Text, b: Text, p: CodeUnit -> bool)
    ensures Keep(a + b, p) == Keep(a, p) + Keep(b, p)
    decreases |a|
  {
    if a != [] {
      assert (a + b)[1..] == a[1..] + b;
      KeepAppend(a[1..], b, p);
    } else {
      assert a + b == b;
    }
  }

  /** A class and its complement split every text between them. */
  lemma {:induction false} KeepPartition(s: Text, p: CodeUnit -> bool, q: CodeUnit -> bool)
    requires forall c :: q(c) == !p(c)
    ensures |Keep(s, p)| + |Keep(s, q)| == |s|
    decreases |s|
  {
    if s != [] {
      KeepPartition(s[1..], p, q);
    }
  }

  /** Two disjoint classes together match as many code units as their union. */
  lemma {:induction false} KeepDisjointUnion(s: Text, p: CodeUnit -> bool, q: CodeUnit -> bool, pq: CodeUnit -> bool)
    requires forall c :: !(p(c) && q(c))
    requires forall c :: pq(c) == (p(c) || q(c))
    ensures |Keep(s, p)| + |Keep(s, q)| == |Keep(s, pq)|
    decreases |s|
  {
    if s != [] {
      KeepDisjointUnion(s[1..], p, q, pq);
    }
  }

  /** A smaller class never matches more code units than a larger one. */
  lemma {:induction false} KeepMonotone(s: Text, p: CodeUnit -> bool, q: CodeUnit -> bool)
    requires forall c :: p(c) ==> q(c)
    ensures |Keep(s, p)| <= |Keep(s, q)|
    decreases |s|
  {
    if s != [] {
      KeepMonotone(s[1..], p, q);
    }
  }

  /** Nothing is kept exactly when no code unit is in the class. */
  lemma {:induction false} KeepEmpty(s: Text, p: CodeUnit -> bool)
    ensures Keep(s, p) == [] <==> forall i :: 0 <= i < |s| ==> !p(s[i])
    decreases |s|
  {
    if s != [] {
      KeepEmpty(s[1..], p);
      assert forall i :: 1 <= i < |s| ==> s[i] == s[1..][i - 1];
    }
  }

  /** The three script counters together count at most the non-whitespace
      code units, because their classes are disjoint and hold no whitespace. */
  lemma ScriptCountsBounded(s: Text)
    ensures MatchCount(s, IsHangulSyllable) + MatchCount(s, IsAsciiLetter) + MatchCount(s, IsAsciiDigit)
            <= |RemoveWhitespace(s)|
  {
    forall c: CodeUnit ensures IsScriptCounted(c) ==> IsNotWhitespace(c) {
      ClassesDisjoint(c);
    }
    KeepDisjointUnion(s, IsHangulSyllable, IsAsciiLetter, HangulOrLetter);
    KeepDisjointUnion(s, HangulOrLetter, IsAsciiDigit, IsScriptCounted);
    KeepMonotone(s, IsScriptCounted, IsNotWhitespace);
  }

  predicate HangulOrLetter(c: CodeUnit) {
    IsHangulSyllable(c) || IsAsciiLetter(c)
  }
}
