/**
 * Substring search by a mix of Boyer-Moore and Horspool with a compressed table of the pattern's
 * characters.  It is proved to agree with searching at every place in turn.
 */
module FastSearch {
  type Char = bv8

  datatype Mode = Count | Search

  // ---------------------------------------------------------------- naive search

  predicate MatchAt(s: seq<Char>, p: seq<Char>, i: int) {
    0 <= i && i + |p| <= |s| && s[i..i + |p|] == p
  }

  /** The least place from `from` on where `p` occurs, or -1. */
  function FirstMatch(s: seq<Char>, p: seq<Char>, from: nat): int
    decreases |s| - from
  {
    if from + |p| > |s| then -1
    else if MatchAt(s, p, from) then from
    else if from == |s| then -1
    else FirstMatch(s, p, from + 1)
  }

  /** How many occurrences are met going from left to right, each starting behind the one before. */
  function GreedyCount(s: seq<Char>, p: seq<Char>, from: nat): nat
    requires p != []
    decreases |s| - from
  {
    if from + |p| > |s| then 0
    else if MatchAt(s, p, from) then 1 + GreedyCount(s, p, from + |p|)
    else GreedyCount(s, p, from + 1)
  }

  /** The result in either mode, for a pattern that is not empty and not longer than the text. */
  function Naive(s: seq<Char>, p: seq<Char>, mode: Mode, from: nat): int
    requires p != []
  {
    if mode == Search then FirstMatch(s, p, from) else GreedyCount(s, p, from)
  }

  lemma {:induction false} FirstMatchIsLeast(s: seq<Char>, p: seq<Char>, from: nat)
    ensures var r := FirstMatch(s, p, from);
      && (r == -1 || (from <= r && MatchAt(s, p, r)))
      && forall i :: from <= i && (r == -1 || i < r) ==> !MatchAt(s, p, i)
    decreases |s| - from
  {
    if from + |p| <= |s| && !MatchAt(s, p, from) && from < |s| {
      FirstMatchIsLeast(s, p, from + 1);
    }
  }

  /** Occurrences that do not overlap, from left to right. */
  ghost predicate Disjoint(s: seq<Char>, p: seq<Char>, places: seq<nat>) {
    && (forall i :: 0 <= i < |places| ==> MatchAt(s, p, places[i]))
    && (forall i, j :: 0 <= i < j < |places| ==> places[i] + |p| <= places[j])
  }

  /** The greedy count is attained. */
  lemma {:induction false} GreedyIsAttained(s: seq<Char>, p: seq<Char>, from: nat) returns (places: seq<nat>)
    requires p != []
    ensures Disjoint(s, p, places) && |places| == GreedyCount(s, p, from)
    ensures forall i :: 0 <= i < |places| ==> from <= places[i]
    decreases |s| - from
  {
    if from + |p| > |s| {
      places := [];
    } else if MatchAt(s, p, from) {
      var rest := GreedyIsAttained(s, p, from + |p|);
      places := [from] + rest;
    } else {
      places := GreedyIsAttained(s, p, from + 1);
    }
  }

  /** No choice of occurrences that do not overlap is larger than the greedy one. */
  lemma {:induction false} GreedyIsMaximal(s: seq<Char>, p: seq<Char>, from: nat, places: seq<nat>)
    requires p != [] && Disjoint(s, p, places) && forall i :: 0 <= i < |places| ==> from <= places[i]
    ensures |places| <= GreedyCount(s, p, from)
    decreases |s| - from
  {
    if places != [] {
      assert MatchAt(s, p, places[0]);
      if MatchAt(s, p, from) {
        assert forall i :: 0 <= i < |places[1..]| ==> places[0] + |p| <= places[1..][i] == places[i + 1];
        GreedyIsMaximal(s, p, from + |p|, places[1..]);
      } else {
        GreedyIsMaximal(s, p, from + 1, places);
      }
    }
  }

  /** Places without a match can be skipped. */
  lemma {:induction false} SkipMisses(s: seq<Char>, p: seq<Char>, mode: Mode, from: nat, upTo: nat)
    requires p != [] && from <= upTo && forall i :: from <= i < upTo ==> !MatchAt(s, p, i)
    ensures Naive(s, p, mode, from) == Naive(s, p, mode, upTo)
    decreases upTo - from
  {
    if from < upTo {
      assert !MatchAt(s, p, from);
      SkipMisses(s, p, mode, from + 1, upTo);
      if from + |p| > |s| { NothingLeft(s, p, mode, upTo); }
    }
  }

  lemma NothingLeft(s: seq<Char>, p: seq<Char>, mode: Mode, from: nat)
    requires p != [] && from + |p| > |s|
    ensures Naive(s, p, mode, from) == if mode == Search then -1 else 0
  {
  }

  // ---------------------------------------------------------------- the table

  /** The low five bits of a character. */
  function Low(c: Char): (r: bv64)
    ensures r < 32
  {
    (c & 0x1F) as bv64
  }

  /** `1 << r` as an int, widened to 64 bits with its sign. */
  function Bit(r: bv64): bv64
    requires r < 32
  {
    if r == 31 then 0xFFFF_FFFF_8000_0000 else 1 << r
  }

  predicate Meet(x: bv64, y: bv64) {
    x & y != 0
  }

  predicate InMask(mask: bv64, c: Char) {
    Meet(mask, Bit(Low(c)))
  }

  lemma BitsAreApart(mask: bv64, c: Char, d: Char)
    ensures InMask(mask | Bit(Low(c)), d) <==> InMask(mask, d) || Low(c) == Low(d)
  {
    hide Bit, Low, Meet;
    BitsMeet(Low(c), Low(d));
    OrAnd(mask, Bit(Low(c)), Bit(Low(d)));
  }

  lemma BitsMeet(a: bv64, b: bv64)
    requires a < 32 && b < 32
    ensures Meet(Bit(a), Bit(b)) <==> a == b
  {
  }

  lemma OrAnd(x: bv64, y: bv64, z: bv64)
    ensures Meet(x | y, z) <==> Meet(x, z) || Meet(y, z)
  {
    assert (x | y) & z == (x & z) | (y & z);
  }

  /** Every character of `p` is in the mask. */
  ghost predicate Covers(mask: bv64, p: seq<Char>) {
    forall k :: 0 <= k < |p| ==> InMask(mask, p[k])
  }

  /** How far the window may move, beyond one place, when its last character matched but another did not. */
  ghost predicate SafeSkip(p: seq<Char>, skip: int) {
    0 <= skip < |p| && forall k :: |p| - 1 - skip <= k < |p| - 1 ==> p[k] != p[|p| - 1]
  }

  /** The mask is that of the first `n` characters: it has in it what has the low bits of one of them. */
  ghost predicate MaskOf(mask: bv64, p: seq<Char>, n: nat)
    requires n <= |p|
  {
    forall c :: InMask(mask, c) <==> LowAmong(p[..n], c)
  }

  ghost predicate LowAmong(p: seq<Char>, c: Char) {
    exists k :: 0 <= k < |p| && Low(p[k]) == Low(c)
  }

  lemma NoBits(p: seq<Char>)
    ensures MaskOf(0, p, 0)
  {
    assert p[..0] == [];
  }

  lemma OneMoreBit(mask: bv64, p: seq<Char>, n: nat)
    requires n < |p| && MaskOf(mask, p, n)
    ensures MaskOf(mask | Bit(Low(p[n])), p, n + 1)
  {
    hide InMask, Bit, Low;
    var marked := mask | Bit(Low(p[n]));
    forall d ensures InMask(marked, d) <==> InMask(mask, d) || Low(p[n]) == Low(d) { BitsAreApart(mask, p[n], d); }
    AlsoAmong(mask, marked, p, n);
  }

  lemma AlsoAmong(mask: bv64, marked: bv64, p: seq<Char>, n: nat)
    requires n < |p| && MaskOf(mask, p, n)
    requires forall d :: InMask(marked, d) <==> InMask(mask, d) || Low(p[n]) == Low(d)
    ensures MaskOf(marked, p, n + 1)
  {
    hide InMask, Low;
    var shorter, longer := p[..n], p[..n + 1];
    assert longer == shorter + [p[n]];
    forall c ensures InMask(marked, c) <==> LowAmong(longer, c) {
      if LowAmong(shorter, c) {
        var k :| 0 <= k < n && Low(shorter[k]) == Low(c);
        assert longer[k] == shorter[k];
      }
      if LowAmong(longer, c) {
        var k :| 0 <= k <= n && Low(longer[k]) == Low(c);
        assert k < n ==> shorter[k] == longer[k];
      }
      assert longer[n] == p[n];
    }
  }

  lemma MaskCovers(mask: bv64, p: seq<Char>)
    requires MaskOf(mask, p, |p|)
    ensures Covers(mask, p)
  {
    hide InMask, Low;
    forall k | 0 <= k < |p| ensures InMask(mask, p[k]) {
      assert p[..|p|] == p;
      assert LowAmong(p, p[k]);
    }
  }

  /** It could move no further: the place where it would stop lines up the last character, or there is none. */
  ghost predicate FullSkip(p: seq<Char>, skip: int) {
    0 <= skip <= |p| - 2 && (skip == |p| - 2 || p[|p| - 2 - skip] == p[|p| - 1])
  }

  /** mask |= 1 << (c & 0x1F) */
  method Mark(mask: bv64, p: seq<Char>, i: nat) returns (marked: bv64)
    requires i < |p| && MaskOf(mask, p, i)
    ensures MaskOf(marked, p, i + 1)
  {
    hide InMask, Bit, Low, MaskOf;
    marked := mask | Bit(Low(p[i]));
    OneMoreBit(mask, p, i);
  }

  /** The table of a pattern of two or more characters. */
  method BuildTable(p: seq<Char>) returns (mask: bv64, skip: int)
    requires |p| >= 2
    ensures Covers(mask, p) && SafeSkip(p, skip)
    ensures MaskOf(mask, p, |p|) && FullSkip(p, skip)
  {
    hide InMask, Bit, Low, MaskOf;
    NoBits(p);
    var mlast := |p| - 1;
    skip := mlast - 1;
    mask := 0;
    var i := 0;
    while i < mlast
      invariant 0 <= i <= mlast
      invariant MaskOf(mask, p, i)
      invariant FullSkip(p, skip)
      invariant 0 <= skip <= mlast - 1
      invariant forall k :: mlast - skip <= k < i ==> p[k] != p[mlast]
    {
      mask := Mark(mask, p, i);
      if p[i] == p[mlast] { skip := mlast - i - 1; }
      i := i + 1;
    }
    mask := Mark(mask, p, mlast);
    MaskCovers(mask, p);
  }

  // ---------------------------------------------------------------- the search

  /** What is read at s[k]; the byte behind the text can be anything. */
  function At(s: seq<Char>, beyond: Char, k: nat): Char
    requires k <= |s|
  {
    if k < |s| then s[k] else beyond
  }

  lemma DiffersAt(s: seq<Char>, p: seq<Char>, j: nat, k: int)
    requires j + |p| <= |s| && 0 <= k < |p| ==> s[j + k] != p[k]
    requires 0 <= k <= |p| && (k == |p| ==> j + |p| > |s|)
    ensures !MatchAt(s, p, j)
  {
    if j + |p| <= |s| { assert s[j..j + |p|][k] != p[k]; }
  }

  /** The character behind the window is not in the pattern: no match touches it. */
  lemma JumpIsSafe(s: seq<Char>, beyond: Char, p: seq<Char>, mask: bv64, i: nat)
    requires |p| >= 2 && i + |p| <= |s| && Covers(mask, p) && !MatchAt(s, p, i)
    requires !InMask(mask, At(s, beyond, i + |p|))
    ensures forall j :: i <= j <= i + |p| ==> !MatchAt(s, p, j)
  {
    forall j: nat | i < j <= i + |p| ensures !MatchAt(s, p, j) {
      DiffersAt(s, p, j, i + |p| - j);
    }
  }

  /** The last character matched: a later match must line up an equal one with it. */
  lemma SkipIsSafe(s: seq<Char>, p: seq<Char>, skip: int, i: nat)
    requires |p| >= 2 && i + |p| <= |s| && SafeSkip(p, skip) && !MatchAt(s, p, i) && s[i + |p| - 1] == p[|p| - 1]
    ensures forall j :: i <= j <= i + skip ==> !MatchAt(s, p, j)
  {
    forall j: nat | i < j <= i + skip ensures !MatchAt(s, p, j) {
      DiffersAt(s, p, j, |p| - 1 - (j - i));
    }
  }

  lemma LastDecides(s: seq<Char>, p: seq<Char>, i: nat)
    requires |p| >= 2 && i + |p| <= |s|
    ensures MatchAt(s, p, i) <==> s[i..i + |p| - 1] == p[..|p| - 1] && s[i + |p| - 1] == p[|p| - 1]
  {
    var w := s[i..i + |p|];
    assert w == s[i..i + |p| - 1] + [s[i + |p| - 1]];
    assert p == p[..|p| - 1] + [p[|p| - 1]];
  }

  /** The inner loop: whether the window at `i` agrees with the pattern, its last character aside. */
  method Agrees(s: seq<Char>, p: seq<Char>, i: nat) returns (r: bool)
    requires |p| >= 2 && i + |p| <= |s|
    ensures r <==> s[i..i + |p| - 1] == p[..|p| - 1]
  {
    var j := 0;
    while j < |p| - 1
      invariant 0 <= j <= |p| - 1
      invariant forall k :: 0 <= k < j ==> s[i + k] == p[k]
    {
      if s[i + j] != p[j] {
        assert s[i..i + |p| - 1][j] != p[..|p| - 1][j];
        return false;
      }
      j := j + 1;
    }
    return true;
  }

  /** The special case of one character. */
  method SearchChar(s: seq<Char>, c: Char, mode: Mode) returns (r: int)
    requires s != []
    ensures r == Naive(s, [c], mode, 0)
  {
    var count := 0;
    var i := 0;
    while i < |s|
      invariant 0 <= i <= |s|
      invariant mode == Search ==> Naive(s, [c], mode, i) == Naive(s, [c], mode, 0)
      invariant mode == Count ==> count + Naive(s, [c], mode, i) == Naive(s, [c], mode, 0)
    {
      assert MatchAt(s, [c], i) <==> s[i] == c;
      if s[i] == c {
        if mode == Search { return i; }
        count := count + 1;
      }
      i := i + 1;
    }
    return if mode == Search then -1 else count;
  }

  /**
   * fastsearch.  `beyond` is the byte behind the text, which is read but cannot matter, since the result
   * is stated without it.
   */
  method FastSearch(s: seq<Char>, p: seq<Char>, mode: Mode, beyond: Char) returns (r: int)
    ensures p == [] || |p| > |s| ==> r == -1
    ensures p != [] && |p| <= |s| && mode == Search ==> r == FirstMatch(s, p, 0)
    ensures p != [] && |p| <= |s| && mode == Count ==> r == GreedyCount(s, p, 0)
  {
    var m, w := |p|, |s| - |p|;
    if w < 0 { return -1; }
    if m <= 1 {
      if m <= 0 { return -1; }
      assert p == [p[0]];
      r := SearchChar(s, p[0], mode);
      return;
    }
    var mask, skip := BuildTable(p);
    var count := 0;
    var i := 0;
    while i <= w
      invariant 0 <= i
      invariant mode == Search ==> Naive(s, p, mode, i) == Naive(s, p, mode, 0)
      invariant mode == Count ==> count + Naive(s, p, mode, i) == Naive(s, p, mode, 0)
      decreases w + 1 - i
    {
      var found, next := Probe(s, p, mask, skip, i, beyond);
      if found {
        if mode == Search { return i; }
        count := count + 1;
      } else {
        SkipMisses(s, p, mode, i, next);
      }
      i := next;
    }
    NothingLeft(s, p, mode, i);
    return if mode == Search then -1 else count;
  }

  /** One round at place `i`: whether the pattern is there, and the next place to look at. */
  method Probe(s: seq<Char>, p: seq<Char>, mask: bv64, skip: int, i: nat, beyond: Char) returns (found: bool, next: nat)
    requires |p| >= 2 && i + |p| <= |s| && Covers(mask, p) && SafeSkip(p, skip)
    ensures found <==> MatchAt(s, p, i)
    ensures found ==> next == i + |p|
    ensures !found ==> i < next && forall j :: i <= j < next ==> !MatchAt(s, p, j)
    ensures !found && !InMask(mask, At(s, beyond, i + |p|)) ==> next == i + |p| + 1
    ensures !found && InMask(mask, At(s, beyond, i + |p|)) ==>
      next == i + 1 + if s[i + |p| - 1] == p[|p| - 1] then skip else 0
  {
    var m := |p|;
    LastDecides(s, p, i);
    found, next := false, i + 1;
    if s[i + m - 1] == p[m - 1] {
      found := Agrees(s, p, i);
      if found {
        next := i + m;
      } else if !InMask(mask, At(s, beyond, i + m)) {
        JumpIsSafe(s, beyond, p, mask, i);
        next := i + m + 1;
      } else {
        SkipIsSafe(s, p, skip, i);
        next := i + skip + 1;
      }
    } else {
      if !InMask(mask, At(s, beyond, i + m)) {
        JumpIsSafe(s, beyond, p, mask, i);
        next := i + m + 1;
      }
    }
  }

  // ---------------------------------------------------------------- find and rfind

  /** The greatest place up to `to` where `p` occurs, or -1. */
  function LastMatch(s: seq<Char>, p: seq<Char>, upTo: int): int
    decreases upTo
  {
    if upTo < 0 then -1 else if MatchAt(s, p, upTo) then upTo else LastMatch(s, p, upTo - 1)
  }

  lemma {:induction false} LastMatchIsGreatest(s: seq<Char>, p: seq<Char>, upTo: int)
    ensures var r := LastMatch(s, p, upTo);
      && (r == -1 || (0 <= r <= upTo && MatchAt(s, p, r)))
      && forall i :: r < i <= upTo ==> !MatchAt(s, p, i)
    decreases upTo
  {
    if upTo >= 0 && !MatchAt(s, p, upTo) { LastMatchIsGreatest(s, p, upTo - 1); }
  }

  /** coio_stringlib_find in the first `len` characters of `str`; a negative length finds nothing. */
  method Find(str: seq<Char>, len: int, sub: seq<Char>, offset: int, beyond: Char) returns (r: int)
    requires len <= |str|
    ensures len < 0 ==> r == -1
    ensures len >= 0 && sub == [] ==> r == offset
    ensures len >= 0 && sub != [] ==>
      r == if FirstMatch(str[..len], sub, 0) < 0 then -1 else FirstMatch(str[..len], sub, 0) + offset
  {
    if len < 0 { return -1; }
    if sub == [] { return offset; }
    FirstMatchIsLeast(str[..len], sub, 0);
    var pos := FastSearch(str[..len], sub, Search, At(str, beyond, len));
    if pos >= 0 { pos := pos + offset; return pos; }
    return -1;
  }

  /** coio_stringlib_rfind */
  method Rfind(str: seq<Char>, len: int, sub: seq<Char>, offset: int) returns (r: int)
    requires len <= |str|
    ensures len < 0 ==> r == -1
    ensures len >= 0 && sub == [] ==> r == len + offset
    ensures len >= 0 && sub != [] ==>
      r == if LastMatch(str[..len], sub, len) < 0 then -1 else LastMatch(str[..len], sub, len) + offset
  {
    if sub == [] {
      return if len < 0 then -1 else len + offset;
    }
    var j := len - |sub|;
    if len >= 0 { NoMatchAtEnd(str[..len], sub, len, j); }
    while j >= 0
      invariant j < 0 || (len >= 0 && j + |sub| <= len)
      invariant len >= 0 ==> LastMatch(str[..len], sub, len) == LastMatch(str[..len], sub, j)
    {
      assert str[j..j + |sub|] == str[..len][j..j + |sub|];
      if str[j..j + |sub|] == sub { return j + offset; }
      j := j - 1;
    }
    return -1;
  }

  lemma {:induction false} NoMatchAtEnd(s: seq<Char>, p: seq<Char>, upTo: int, j: int)
    requires j <= upTo && j == |s| - |p|
    ensures LastMatch(s, p, upTo) == LastMatch(s, p, j)
    decreases upTo - j
  {
    if upTo > j {
      if upTo >= 0 { NoMatchAtEnd(s, p, upTo - 1, j); }
    }
  }
}
