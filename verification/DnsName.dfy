/** Bytes and C strings, shared by the byte-level components. */
module Bytes {
  type Byte = x: int | 0 <= x < 256

  function One(b: Byte): seq<Byte> { [b] }

  /** The number that two bytes give in network order. */
  function Number(bytes: seq<Byte>, at: nat): nat
    requires at + 1 < |bytes|
  {
    bytes[at] as int * 0x100 + bytes[at + 1] as int
  }

  /** A number cut to two bytes is its two digits in base 256. */
  lemma TwoDigits(x: nat)
    ensures x / 0x100 % 0x100 * 0x100 + x % 0x100 == x % 0x10000
  {
    var q, r := x / 0x10000, x % 0x10000;
    assert x == q * 0x10000 + r;
    assert x / 0x100 == q * 0x100 + r / 0x100;
    assert r / 0x100 < 0x100 && r == r / 0x100 * 0x100 + r % 0x100;
    assert (q * 0x100 + r / 0x100) % 0x100 == r / 0x100;
    assert x % 0x100 == r % 0x100;
  }

  datatype Option<+T> = None | Some(value: T)

  /** A C string is a byte sequence without the terminating zero. */
  predicate IsCString(s: seq<Byte>) {
    forall i :: 0 <= i < |s| ==> s[i] != 0
  }

  /** strchr: the first index of `c` in `s`, or -1. */
  function IndexOf(s: seq<Byte>, c: Byte): (r: int)
    ensures -1 <= r < |s|
    ensures 0 <= r ==> s[r] == c && c !in s[..r]
    ensures r == -1 ==> c !in s
  {
    if s == [] then -1
    else if s[0] == c then 0
    else
      var rest := IndexOf(s[1..], c);
      assert s == [s[0]] + s[1..];
      assert 0 <= rest ==> s[..rest + 1] == [s[0]] + s[1..][..rest];
      if rest == -1 then -1 else rest + 1
  }
}

/**
 * Reading a domain name out of a DNS packet.  The meaning of the bytes is given by `Walk`, a finite
 * path through labels and compression pointers (section 4.1.4 of RFC 1035); `ParseFrom` is what
 * name_parse computes, with its pointer budget and its output limit, and the theorems connect the two.
 */
module NameParsing {
  import opened Bytes

  const DOT: Byte := 46

  lemma FirstDot(s: seq<Byte>, k: nat)
    requires k < |s| && s[k] == DOT && forall i :: 0 <= i < k ==> s[i] != DOT
    ensures IndexOf(s, DOT) == k
  {
    var r := IndexOf(s, DOT);
    assert s[k] in s;
    forall i | 0 <= i < r ensures s[i] != DOT { assert s[..r][i] == s[i]; }
  }

  type Label = seq<Byte>

  /**
   * A finite path through a packet: it ends at a zero byte, passes over a label, or follows a pointer
   * to an earlier or later offset.
   */
  datatype Walk = End | Over(l: Label, rest: Walk) | Jump(to: nat, rest: Walk)

  /** The offset a two-byte pointer names: the low 14 bits. */
  function Target(packet: seq<Byte>, at: nat): (r: nat)
    requires at + 1 < |packet|
    ensures r == Number(packet, at) % 0x4000
    ensures 0xC000 <= Number(packet, at) ==> Number(packet, at) == 0xC000 + r
  {
    (packet[at] as int % 64) * 256 + packet[at + 1] as int
  }

  ghost predicate LabelAt(packet: seq<Byte>, at: nat, l: Label) {
    0 < |l| < 64 && at + 1 + |l| <= |packet| && packet[at] == |l| && packet[at + 1..at + 1 + |l|] == l
  }

  ghost predicate PointerAt(packet: seq<Byte>, at: nat, to: nat) {
    at + 1 < |packet| && 64 <= packet[at] && Target(packet, at) == to
  }

  /** `w` is the path that starts at offset `at`. */
  ghost predicate Follows(packet: seq<Byte>, at: nat, w: Walk)
    decreases w
  {
    match w
    case End => at < |packet| && packet[at] == 0
    case Over(l, rest) => LabelAt(packet, at, l) && Follows(packet, at + 1 + |l|, rest)
    case Jump(to, rest) => PointerAt(packet, at, to) && Follows(packet, to, rest)
  }

  /** The labels met on the path, in order. */
  ghost function LabelsOn(w: Walk): seq<Label> {
    match w
    case End => []
    case Over(l, rest) => [l] + LabelsOn(rest)
    case Jump(_, rest) => LabelsOn(rest)
  }

  /** The offset just after the name as it stands at `at`, where the reader goes on. */
  ghost function EndOf(at: nat, w: Walk): nat
    decreases w
  {
    match w
    case End => at + 1
    case Over(l, rest) => EndOf(at + 1 + |l|, rest)
    case Jump(_, _) => at + 2
  }

  ghost function Jumps(w: Walk): nat {
    match w
    case End => 0
    case Over(_, rest) => Jumps(rest)
    case Jump(_, rest) => 1 + Jumps(rest)
  }

  /** Labels joined with dots: the text form of a name. */
  function Join(ls: seq<Label>): seq<Byte> {
    if ls == [] then []
    else if |ls| == 1 then ls[0]
    else ls[0] + [DOT] + Join(ls[1..])
  }

  datatype Parsed = Bad | Good(name: seq<Byte>, next: nat)

  /** One more label behind the text written so far; no dot before the first. */
  function AppendLabel(out: seq<Byte>, l: Label): seq<Byte> {
    if out == [] then l else out + [DOT] + l
  }

  /**
   * The parser's remaining run at offset `j`, after `jumps` pointers, with `out` written so far.
   * `nameEnd` is the offset after the first pointer, once there was one.
   */
  function ParseFrom(packet: seq<Byte>, j: nat, jumps: nat, nameEnd: Option<nat>, out: seq<Byte>, cap: nat): Parsed
    requires jumps <= |packet|
    decreases |packet| - jumps, |packet| - j
  {
    if j >= |packet| then Bad
    else if packet[j] == 0 then
      if |out| >= cap then Bad else Good(out, if nameEnd.None? then j + 1 else nameEnd.value)
    else if packet[j] >= 64 then
      if j + 1 >= |packet| then Bad
      else if Target(packet, j) >= |packet| || jumps + 1 > |packet| then Bad
      else ParseFrom(packet, Target(packet, j), jumps + 1, if nameEnd.None? then Some(j + 2) else nameEnd, out, cap)
    else if j + 1 + packet[j] > |packet| then Bad
    else
      var out' := AppendLabel(out, packet[j + 1..j + 1 + packet[j]]);
      if |out'| >= cap then Bad
      else ParseFrom(packet, j + 1 + packet[j], jumps, nameEnd, out', cap)
  }

  function ParseName(packet: seq<Byte>, at: nat, cap: nat): Parsed {
    ParseFrom(packet, at, 0, None, [], cap)
  }

  /** memcpy of `piece` to offset `at` of `buf`. */
  method Put(buf: array<Byte>, at: nat, piece: seq<Byte>)
    requires at + |piece| <= buf.Length
    modifies buf
    ensures forall k :: 0 <= k < at || at + |piece| <= k < buf.Length ==> buf[k] == old(buf[k])
    ensures buf[..at + |piece|] == old(buf[..at]) + piece
  {
    forall k | 0 <= k < |piece| {
      buf[at + k] := piece[k];
    }
  }

  /** The dot and the label, behind the `cp` bytes written so far; each only if it leaves room for the zero. */
  method WriteLabel(nameOut: array<Byte>, cp: nat, piece: Label) returns (ok: bool, end: nat)
    requires cp <= nameOut.Length && piece != []
    modifies nameOut
    ensures ok <==> |AppendLabel(old(nameOut[..cp]), piece)| < nameOut.Length
    ensures end <= nameOut.Length
    ensures ok ==> nameOut[..end] == AppendLabel(old(nameOut[..cp]), piece)
  {
    ghost var before := nameOut[..cp];
    end := cp;
    if cp != 0 {
      if cp + 1 >= nameOut.Length { return false, cp; }
      Put(nameOut, cp, [DOT]);
      end := cp + 1;
    }
    if end + |piece| >= nameOut.Length { return false, end; }
    Put(nameOut, end, piece);
    end := end + |piece|;
    return true, end;
  }

  /**
   * name_parse: writes the name and a terminating zero into `nameOut`, whose length is the limit.
   * `next` is the offset the caller's index is moved to.
   */
  method NameParse(packet: seq<Byte>, idx: nat, nameOut: array<Byte>) returns (r: int, len: nat, next: nat)
    modifies nameOut
    ensures r == if ParseName(packet, idx, nameOut.Length).Good? then 0 else -1
    ensures r == 0 ==> len < nameOut.Length && nameOut[len] == 0
    ensures r != 0 ==> next == idx
    ensures r == 0 ==> ParseName(packet, idx, nameOut.Length) == Good(nameOut[..len], next)
  {
    hide AppendLabel, Target;
    var j: nat, ptrCount: nat, cp: nat := idx, 0, 0;
    var nameEnd: Option<nat> := None;
    len, next := 0, idx;
    ghost var run := ParseName(packet, idx, nameOut.Length);
    assert nameOut[..cp] == [];
    while j < |packet| && packet[j] != 0
      invariant ptrCount <= |packet| && cp <= nameOut.Length
      invariant ParseFrom(packet, j, ptrCount, nameEnd, nameOut[..cp], nameOut.Length) == run
      decreases |packet| - ptrCount, |packet| - j
    {
      if packet[j] >= 64 {
        if j + 1 >= |packet| || Target(packet, j) >= |packet| || ptrCount + 1 > |packet| { return -1, 0, idx; }
        if nameEnd.None? { nameEnd := Some(j + 2); }
        j, ptrCount := Target(packet, j), ptrCount + 1;
      } else {
        var behind := j + 1 + packet[j];
        if behind > |packet| { return -1, 0, idx; }
        var fits: bool;
        fits, cp := WriteLabel(nameOut, cp, packet[j + 1..behind]);
        if !fits { return -1, 0, idx; }
        j := behind;
      }
    }
    if j >= |packet| || cp >= nameOut.Length { return -1, 0, idx; }
    nameOut[cp] := 0;
    return 0, cp, if nameEnd.None? then j + 1 else nameEnd.value;
  }

  // ---------------------------------------------------------------- what parsing means

  /** There is at most one path from an offset, so a path never passes its own start again. */
  lemma {:induction false} WalkUnique(packet: seq<Byte>, at: nat, v: Walk, w: Walk)
    requires Follows(packet, at, v) && Follows(packet, at, w)
    ensures v == w
    decreases v
  {
    match v
    case End =>
    case Over(l, r) =>
      assert w.l == l;
      WalkUnique(packet, at + 1 + |l|, r, w.rest);
    case Jump(to, r) => WalkUnique(packet, to, r, w.rest);
  }

  /** The offsets that pointers on the path lead to. */
  ghost function Targets(w: Walk): set<nat> {
    match w
    case End => {}
    case Over(_, rest) => Targets(rest)
    case Jump(to, rest) => {to} + Targets(rest)
  }

  ghost function Steps(w: Walk): nat {
    if w.End? then 0 else 1 + Steps(w.rest)
  }

  lemma {:induction false} TargetStartsShorterWalk(packet: seq<Byte>, at: nat, w: Walk, t: nat) returns (v: Walk)
    requires Follows(packet, at, w) && t in Targets(w)
    ensures Follows(packet, t, v) && Steps(v) < Steps(w)
    decreases w
  {
    match w
    case Over(l, rest) => v := TargetStartsShorterWalk(packet, at + 1 + |l|, rest, t);
    case Jump(to, rest) =>
      if t == to {
        v := rest;
      } else {
        v := TargetStartsShorterWalk(packet, to, rest, t);
      }
  }

  /** A finite path never jumps to the same offset twice. */
  lemma {:induction false} JumpsAreDistinct(packet: seq<Byte>, at: nat, w: Walk)
    requires Follows(packet, at, w)
    ensures |Targets(w)| == Jumps(w)
    ensures forall t :: t in Targets(w) ==> t < |packet|
    decreases w
  {
    match w
    case End =>
    case Over(l, rest) => JumpsAreDistinct(packet, at + 1 + |l|, rest);
    case Jump(to, rest) =>
      JumpsAreDistinct(packet, to, rest);
      StartsInside(packet, to, rest);
      if to in Targets(rest) {
        var v := TargetStartsShorterWalk(packet, to, rest, to);
        WalkUnique(packet, to, rest, v);
      }
  }

  lemma StartsInside(packet: seq<Byte>, at: nat, w: Walk)
    requires Follows(packet, at, w)
    ensures at < |packet|
  {
  }

  lemma {:induction false} BoundedSetSize(s: set<nat>, n: nat)
    requires forall x :: x in s ==> x < n
    ensures |s| <= n
    decreases n
  {
    if n > 0 {
      var smaller := s - {n - 1};
      BoundedSetSize(smaller, n - 1);
      if n - 1 in s { assert s == smaller + {n - 1}; } else { assert s == smaller; }
    } else {
      assert s == {};
    }
  }

  /** The pointer budget never cuts a finite path: no acyclic name is refused for its pointers. */
  lemma {:induction false} JumpsFitBudget(packet: seq<Byte>, at: nat, w: Walk)
    requires Follows(packet, at, w)
    ensures Jumps(w) <= |packet|
  {
    JumpsAreDistinct(packet, at, w);
    BoundedSetSize(Targets(w), |packet|);
  }

  ghost function JoinBehind(out: seq<Byte>, ls: seq<Label>): seq<Byte>
    decreases |ls|
  {
    if ls == [] then out else JoinBehind(AppendLabel(out, ls[0]), ls[1..])
  }

  lemma {:induction false} JoinBehindIsJoin(out: seq<Byte>, ls: seq<Label>)
    requires forall i :: 0 <= i < |ls| ==> ls[i] != []
    ensures JoinBehind(out, ls) == (if ls == [] then out else AppendLabel(out, Join(ls)))
    ensures |JoinBehind(out, ls)| >= |out|
    decreases |ls|
  {
    if ls != [] {
      var out' := AppendLabel(out, ls[0]);
      JoinBehindIsJoin(out', ls[1..]);
      if |ls| > 1 {
        assert AppendLabel(out', Join(ls[1..])) == AppendLabel(out, ls[0] + [DOT] + Join(ls[1..]));
      }
    }
  }

  ghost function Limited(name: seq<Byte>, next: nat, cap: nat): Parsed {
    if |name| >= cap then Bad else Good(name, next)
  }

  lemma {:induction false} LabelsAreNotEmpty(packet: seq<Byte>, at: nat, w: Walk)
    requires Follows(packet, at, w)
    ensures forall i :: 0 <= i < |LabelsOn(w)| ==> LabelsOn(w)[i] != []
    decreases w
  {
    match w
    case End =>
    case Over(l, rest) => LabelsAreNotEmpty(packet, at + 1 + |l|, rest);
    case Jump(to, rest) => LabelsAreNotEmpty(packet, to, rest);
  }

  /** Along a path with few enough pointers the parser reads exactly the path's labels. */
  lemma {:induction false} ParseAlong(packet: seq<Byte>, at: nat, w: Walk, jumps: nat, nameEnd: Option<nat>,
                                      out: seq<Byte>, cap: nat)
    requires Follows(packet, at, w) && jumps + Jumps(w) <= |packet|
    ensures ParseFrom(packet, at, jumps, nameEnd, out, cap)
         == Limited(JoinBehind(out, LabelsOn(w)), if nameEnd.None? then EndOf(at, w) else nameEnd.value, cap)
    decreases w
  {
    hide AppendLabel, Target, Join;
    match w
    case End =>
    case Over(l, rest) =>
      LabelsAreNotEmpty(packet, at + 1 + |l|, rest);
      assert LabelsOn(w)[1..] == LabelsOn(rest);
      JoinBehindIsJoin(AppendLabel(out, l), LabelsOn(rest));
      StartsInside(packet, at + 1 + |l|, rest);
      ParseAlong(packet, at + 1 + |l|, rest, jumps, nameEnd, AppendLabel(out, l), cap);
    case Jump(to, rest) =>
      StartsInside(packet, to, rest);
      ParseAlong(packet, to, rest, jumps + 1, if nameEnd.None? then Some(at + 2) else nameEnd, out, cap);
  }

  lemma {:induction false} ParseFindsWalk(packet: seq<Byte>, at: nat, jumps: nat, nameEnd: Option<nat>,
                                          out: seq<Byte>, cap: nat) returns (w: Walk)
    requires jumps <= |packet|
    requires ParseFrom(packet, at, jumps, nameEnd, out, cap).Good?
    ensures Follows(packet, at, w)
    decreases |packet| - jumps, |packet| - at
  {
    if packet[at] == 0 {
      w := End;
    } else if packet[at] >= 64 {
      var to := Target(packet, at);
      var rest := ParseFindsWalk(packet, to, jumps + 1, if nameEnd.None? then Some(at + 2) else nameEnd, out, cap);
      w := Jump(to, rest);
    } else {
      var l := packet[at + 1..at + 1 + packet[at]];
      var rest := ParseFindsWalk(packet, at + 1 + |l|, jumps, nameEnd, AppendLabel(out, l), cap);
      w := Over(l, rest);
    }
  }

  /** What a path denotes, for the reader: the dotted name and where reading goes on. */
  ghost function Meaning(at: nat, w: Walk): Parsed {
    Good(Join(LabelsOn(w)), EndOf(at, w))
  }

  /** Complete on finite paths, whatever the pointers look like. */
  lemma ParseComplete(packet: seq<Byte>, at: nat, w: Walk, cap: nat)
    requires Follows(packet, at, w)
    ensures ParseName(packet, at, cap) == if |Join(LabelsOn(w))| < cap then Meaning(at, w) else Bad
  {
    JumpsFitBudget(packet, at, w);
    ParseAlong(packet, at, w, 0, None, [], cap);
    LabelsAreNotEmpty(packet, at, w);
    JoinBehindIsJoin([], LabelsOn(w));
  }

  /**
   * Main result on parsing, for every packet, offset and limit: parsing yields `r` exactly when there
   * is a finite path from the offset that denotes `r` and whose text fits.
   */
  lemma ParseIsMeaning(packet: seq<Byte>, at: nat, cap: nat, r: Parsed)
    requires r.Good?
    ensures ParseName(packet, at, cap) == r <==>
            exists w :: Follows(packet, at, w) && Meaning(at, w) == r && |r.name| < cap
  {
    if ParseName(packet, at, cap) == r {
      var w := ParseFindsWalk(packet, at, 0, None, [], cap);
      ParseComplete(packet, at, w, cap);
      assert Follows(packet, at, w) && Meaning(at, w) == r && |r.name| < cap;
    }
    if w :| Follows(packet, at, w) && Meaning(at, w) == r && |r.name| < cap {
      ParseComplete(packet, at, w, cap);
    }
  }

  lemma {:induction false} EndIsAhead(packet: seq<Byte>, at: nat, w: Walk)
    requires Follows(packet, at, w)
    ensures at < EndOf(at, w) <= |packet|
    decreases w
  {
    if w.Over? { EndIsAhead(packet, at + 1 + |w.l|, w.rest); }
  }

  /** On success the caller's index moves forward and stays inside the packet. */
  lemma ParseAdvances(packet: seq<Byte>, at: nat, cap: nat)
    requires ParseName(packet, at, cap).Good?
    ensures at < ParseName(packet, at, cap).next <= |packet|
  {
    var w := ParseFindsWalk(packet, at, 0, None, [], cap);
    ParseComplete(packet, at, w, cap);
    EndIsAhead(packet, at, w);
  }

  lemma LabelAtMonotone(packet: seq<Byte>, more: seq<Byte>, at: nat, l: Label)
    requires LabelAt(packet, at, l)
    ensures LabelAt(packet + more, at, l)
  {
    assert (packet + more)[at + 1..at + 1 + |l|] == packet[at + 1..at + 1 + |l|];
  }

  /** A path stays the same path when the packet grows behind it. */
  lemma {:induction false} FollowsMonotone(packet: seq<Byte>, more: seq<Byte>, at: nat, w: Walk)
    requires Follows(packet, at, w)
    ensures Follows(packet + more, at, w)
    decreases w
  {
    match w
    case End =>
    case Over(l, rest) =>
      LabelAtMonotone(packet, more, at, l);
      FollowsMonotone(packet, more, at + 1 + |l|, rest);
    case Jump(to, rest) => FollowsMonotone(packet, more, to, rest);
  }
}
