/** The question packet of a lookup: evdns_request_data_build and the buffer size computed for it. */
module DnsRequest {
  import opened Bytes
  import opened NameParsing
  import opened NameWriting
  import opened NameRoundTrip

  /** evdns_request_len: the size of the buffer a request for a name of this length is built in. */
  function RequestLen(nameLen: nat): nat {
    96 + nameLen + 2 + 4
  }

  const HEADER := 12
  const CLASS_INET := 1

  /** htons */
  function Short(x: nat): (s: seq<Byte>)
    ensures |s| == 2 && Number(s, 0) == x % 0x10000
  {
    TwoDigits(x);
    One(x / 256 % 256) + One(x % 256)
  }

  /** Identifier, flags for a recursive query, one question and no records. */
  function Header(transId: nat): (h: seq<Byte>)
    ensures |h| == HEADER
  {
    Short(transId) + Short(0x0100) + Short(1) + Short(0) + Short(0) + Short(0)
  }

  datatype Built = Refused(code: ErrorCode) | Built(bytes: seq<Byte>)

  function Build(name: seq<Byte>, transId: nat, kind: nat, cls: nat, bufLen: nat): Built {
    if HEADER > bufLen then Refused(-1)
    else
      match Write(Header(transId), bufLen, name, false, [])
      case Failed(code, _) => Refused(code)
      case Written(bytes, _) =>
        if |bytes| + 4 > bufLen then Refused(-1) else Built(bytes + Short(kind) + Short(cls))
  }

  /** APPEND16: two bytes at `j` if they fit. */
  method Append16(buf: array<Byte>, bufLen: nat, j: nat, x: nat) returns (r: int)
    requires bufLen < buf.Length
    modifies buf
    ensures r == if j + 2 > bufLen then -1 else j + 2
    ensures r >= 0 ==> buf[..r] == old(buf[..j]) + Short(x)
    ensures r < 0 ==> buf[..] == old(buf[..])
  {
    if j + 2 > bufLen { return -1; }
    Put(buf, j, Short(x));
    return j + 2;
  }

  method AppendHeader(buf: array<Byte>, bufLen: nat, transId: nat) returns (r: int)
    requires bufLen < buf.Length
    modifies buf
    ensures r == if HEADER > bufLen then -1 else HEADER
    ensures r >= 0 ==> buf[..r] == Header(transId)
  {
    r := Append16(buf, bufLen, 0, transId);
    if r < 0 { return -1; }
    r := Append16(buf, bufLen, r, 0x0100);
    if r < 0 { return -1; }
    r := Append16(buf, bufLen, r, 1);
    if r < 0 { return -1; }
    r := Append16(buf, bufLen, r, 0);
    if r < 0 { return -1; }
    r := Append16(buf, bufLen, r, 0);
    if r < 0 { return -1; }
    r := Append16(buf, bufLen, r, 0);
  }

  /** The whole packet into `buf`; its length, or a negative code. */
  method EvdnsRequestDataBuild(name: seq<Byte>, transId: nat, kind: nat, cls: nat, buf: array<Byte>, bufLen: nat)
    returns (r: int)
    requires bufLen < buf.Length
    modifies buf
    ensures match Build(name, transId, kind, cls, bufLen)
      case Refused(code) => r == code
      case Built(bytes) => r == |bytes| <= bufLen && buf[..r] == bytes
  {
    var j := AppendHeader(buf, bufLen, transId);
    if j < 0 { return -1; }
    j := DnsnameToLabels(buf, bufLen, j, name, null);
    if j < 0 { return j; }
    ghost var named := buf[..j];
    j := Append16(buf, bufLen, j, kind);
    if j < 0 { return -1; }
    j := Append16(buf, bufLen, j, cls);
    if j < 0 { return -1; }
    assert buf[..j] == named + Short(kind) + Short(cls);
    return j;
  }

  /** No label is longer than a label can be. */
  predicate LabelsFit(name: seq<Byte>)
    decreases |name|
  {
    var dot := IndexOf(name, DOT);
    |FirstLabel(name)| <= MAX_LABEL && (dot >= 0 ==> LabelsFit(name[dot + 1..]))
  }

  /** The last label is empty, so its length byte already is the closing zero. */
  predicate ClosesItself(name: seq<Byte>) {
    name == [] || name[|name| - 1] == DOT
  }

  /** The wire form of a name, when no table shortens it: one byte before each label, one behind the last. */
  function WireLength(name: seq<Byte>): nat {
    |name| + if ClosesItself(name) then 1 else 2
  }

  /**
   * Without a table, writing succeeds exactly when the labels fit and the bytes up to the last label
   * have room; the closing zero is not part of that check, so a name that does not close itself may
   * end one byte past `bufLen`.
   */
  lemma {:induction false} PlainWriteLength(bytes: seq<Byte>, bufLen: nat, name: seq<Byte>)
    ensures WriteFrom(bytes, bufLen, name, false, []).Written?
        <==> LabelsFit(name) && |bytes| + |name| + 1 <= bufLen
    ensures match WriteFrom(bytes, bufLen, name, false, [])
      case Failed(code, _) => code < 0
      case Written(after, _) =>
        && |bytes| + |name| < |after| <= |bytes| + |name| + 2
        && (IsCString(name) ==> |after| == |bytes| + WireLength(name))
    decreases |name|
  {
    hide WithLabel, Terminate, IndexOf, ClosesItself, Lookup, IsCString;
    var dot := IndexOf(name, DOT);
    if |FirstLabel(name)| <= MAX_LABEL && |bytes| + |FirstLabel(name)| + 1 <= bufLen {
      WithLabelLength(bytes, name);
      if dot < 0 {
        TerminatedLength(bytes, name);
      } else {
        CloseOfRest(name);
        PlainWriteLength(WithLabel(bytes, name), bufLen, name[dot + 1..]);
      }
    }
  }

  lemma WithLabelLength(bytes: seq<Byte>, name: seq<Byte>)
    requires |FirstLabel(name)| <= MAX_LABEL
    ensures |WithLabel(bytes, name)| == |bytes| + 1 + |FirstLabel(name)|
  {
  }

  lemma TerminatedLength(bytes: seq<Byte>, name: seq<Byte>)
    requires IndexOf(name, DOT) < 0 && |name| <= MAX_LABEL
    ensures |bytes| + |name| < |Terminate(WithLabel(bytes, name))| <= |bytes| + |name| + 2
    ensures IsCString(name) ==> |Terminate(WithLabel(bytes, name))| == |bytes| + WireLength(name)
  {
    var front := WithLabel(bytes, name);
    assert front[|front| - 1] == if name == [] then 0 else name[|name| - 1];
  }

  lemma CloseOfRest(name: seq<Byte>)
    requires IndexOf(name, DOT) >= 0
    ensures ClosesItself(name[IndexOf(name, DOT) + 1..]) == ClosesItself(name)
    ensures IsCString(name) ==> IsCString(name[IndexOf(name, DOT) + 1..])
  {
    var rest := name[IndexOf(name, DOT) + 1..];
    assert rest != [] ==> rest[|rest| - 1] == name[|name| - 1];
  }

  /** The names within the limits of DNS on a name and on each label; empty labels are not excluded. */
  predicate Encodable(name: seq<Byte>) {
    |name| <= MAX_NAME && LabelsFit(name)
  }

  /** A dot within 64 bytes from `i` on. */
  ghost predicate DotNear(name: seq<Byte>, i: nat) {
    exists k :: i <= k < i + 64 && k < |name| && name[k] == DOT
  }

  /** The limits in plain numbers: 255 bytes in all, and no 64 bytes in a row without a dot. */
  lemma NameLimits(name: seq<Byte>)
    ensures Encodable(name) <==> |name| <= 255 && forall i: nat :: i + 64 <= |name| ==> DotNear(name, i)
  {
    DotsAreNear(name);
  }

  lemma {:induction false} DotsAreNear(name: seq<Byte>)
    ensures LabelsFit(name) <==> forall i: nat :: i + 64 <= |name| ==> DotNear(name, i)
    decreases |name|
  {
    hide DotNear, FirstLabel, IndexOf, LabelsFit;
    var dot := IndexOf(name, DOT);
    FirstFits(name);
    NearFirst(name);
    if dot >= 0 {
      var rest := name[dot + 1..];
      DotsAreNear(rest);
      if LabelsFit(name) {
        forall i: nat | i + 64 <= |name| ensures DotNear(name, i) {
          if dot < i { NearShift(name, dot + 1, i - dot - 1); }
        }
      } else if |FirstLabel(name)| <= 63 {
        var i: nat :| i + 64 <= |rest| && !DotNear(rest, i);
        NearShift(name, dot + 1, i);
      }
    }
  }

  lemma NearShift(name: seq<Byte>, d: nat, i: nat)
    requires d <= |name|
    ensures DotNear(name[d..], i) <==> DotNear(name, i + d)
  {
    if DotNear(name, i + d) {
      var k :| i + d <= k < i + d + 64 && k < |name| && name[k] == DOT;
      assert name[d..][k - d] == DOT;
    }
    if DotNear(name[d..], i) {
      var k :| i <= k < i + 64 && k < |name[d..]| && name[d..][k] == DOT;
      assert name[k + d] == DOT;
    }
  }

  lemma FirstFits(name: seq<Byte>)
    ensures var dot := IndexOf(name, DOT);
      LabelsFit(name) <==> |FirstLabel(name)| <= 63 && (dot >= 0 ==> LabelsFit(name[dot + 1..]))
  {
    hide FirstLabel, IndexOf;
  }

  lemma NearFirst(name: seq<Byte>)
    ensures |FirstLabel(name)| <= 63 && IndexOf(name, DOT) >= 0 ==>
      forall i: nat :: i <= IndexOf(name, DOT) ==> DotNear(name, i)
    ensures |FirstLabel(name)| > 63 ==> |name| >= 64 && !DotNear(name, 0)
    ensures IndexOf(name, DOT) < 0 ==> |FirstLabel(name)| == |name|
  {
    hide LabelsFit;
    if |FirstLabel(name)| > 63 {
      forall k | 0 <= k < 64 && k < |name| ensures name[k] != DOT {
        assert FirstLabel(name)[k] == name[k];
      }
    }
  }

  /** In the size computed for it, a request is built exactly for the names within the limits, and it fits. */
  lemma RequestAlwaysFits(name: seq<Byte>, transId: nat, kind: nat, cls: nat)
    ensures match Build(name, transId, kind, cls, RequestLen(|name|))
      case Refused(code) => code < 0 && !Encodable(name)
      case Built(bytes) =>
        && Encodable(name) && |bytes| <= RequestLen(|name|)
        && (IsCString(name) ==> |bytes| == HEADER + WireLength(name) + 4)
  {
    PlainWriteLength(Header(transId), RequestLen(|name|), name);
  }

  // ---------------------------------------------------------------- another identifier

  /** What is written does not depend on the bytes before it. */
  lemma {:induction false} WriteElsewhere(a: seq<Byte>, b: seq<Byte>, bufLen: nat, name: seq<Byte>)
    requires |a| == |b|
    ensures match (WriteFrom(a, bufLen, name, false, []), WriteFrom(b, bufLen, name, false, []))
      case (Written(x, _), Written(y, _)) => |y| >= |b| && x == a + y[|b|..] && y == b + y[|b|..]
      case (Failed(c, _), Failed(d, _)) => c == d
      case _ => false
    decreases |name|
  {
    hide IndexOf, Lookup, Terminate;
    var l := FirstLabel(name);
    if |l| <= MAX_LABEL && |a| + |l| + 1 <= bufLen {
      var x := One(|l|) + l;
      assert WithLabel(a, name) == a + x && WithLabel(b, name) == b + x;
      if IndexOf(name, DOT) < 0 {
        TerminateBehind(a, x);
        TerminateBehind(b, x);
      } else {
        WriteElsewhere(a + x, b + x, bufLen, name[IndexOf(name, DOT) + 1..]);
        var y := WriteFrom(b + x, bufLen, name[IndexOf(name, DOT) + 1..], false, []);
        if y.Written? {
          Behind(a, b, x, y.bytes, y.bytes[|b + x|..]);
        }
      }
    }
  }

  lemma TerminateBehind(a: seq<Byte>, x: seq<Byte>)
    requires x != []
    ensures Terminate(a + x) == a + Terminate(x) && (a + Terminate(x))[|a|..] == Terminate(x)
  {
  }

  lemma Behind(a: seq<Byte>, b: seq<Byte>, x: seq<Byte>, y: seq<Byte>, z: seq<Byte>)
    requires y == b + x + z
    ensures y[|b|..] == x + z && a + x + z == a + y[|b|..] && y == b + y[|b|..]
  {
  }

  /** A packet that asks for this name and type, whatever its identifier. */
  ghost predicate Asks(packet: seq<Byte>, name: seq<Byte>, kind: nat) {
    |packet| >= 2 && Build(name, 0, kind, CLASS_INET, RequestLen(|name|)) == Built(Short(0) + packet[2..])
  }

  /** Packets for one question differ in the identifier only, so that it can be overwritten. */
  lemma OtherIdentifier(name: seq<Byte>, kind: nat, transId: nat, packet: seq<Byte>)
    ensures Build(name, transId, kind, CLASS_INET, RequestLen(|name|)) == Built(packet)
        <==> Asks(packet, name, kind) && packet[..2] == Short(transId)
  {
    hide WriteFrom, One, Short;
    var bufLen, tail := RequestLen(|name|), Short(0x0100) + Short(1) + Short(0) + Short(0) + Short(0);
    var a, b := Header(transId), Header(0);
    assert a == Short(transId) + tail && b == Short(0) + tail;
    WriteElsewhere(a, b, bufLen, name);
    var y := WriteFrom(b, bufLen, name, false, []);
    if y.Written? && |name| <= MAX_NAME {
      var z := y.bytes[|b|..] + Short(kind) + Short(CLASS_INET);
      assert y.bytes + Short(kind) + Short(CLASS_INET) == Short(0) + (tail + z);
      assert a + y.bytes[|b|..] + Short(kind) + Short(CLASS_INET) == Short(transId) + (tail + z);
      if |packet| >= 2 {
        assert packet == packet[..2] + packet[2..];
        TailsEqual(Short(0), packet[2..], tail + z);
        if packet == Short(transId) + (tail + z) { assert packet[2..] == tail + z && packet[..2] == Short(transId); }
      }
    }
  }

  lemma TailsEqual(a: seq<Byte>, b: seq<Byte>, c: seq<Byte>)
    ensures a + b == a + c <==> b == c
  {
    assert (a + b)[|a|..] == b && (a + c)[|a|..] == c;
  }

  /** The question in a built request reads back as the name it was built for. */
  lemma RequestRoundTrip(name: seq<Byte>, transId: nat, kind: nat, cls: nat)
    requires IsCString(name)
    requires Build(name, transId, kind, cls, RequestLen(|name|)).Built?
    ensures var p := ParseName(Build(name, transId, kind, cls, RequestLen(|name|)).bytes, HEADER, NAME_BUFFER);
      && p.Good? && p.name == Join(Labels(name))
      && (NoEmptyLabel(name) ==> p == Good(TrimDot(name), HEADER + WireLength(name)))
  {
    hide Short, Header, One, WriteFrom, ParseName, LabelsFit, Labels, Join, Stands, NoEmptyLabel, TrimDot, WireLength,
         EndOf, Build;
    var named, w := NameInRequest(name, transId, kind, cls);
    StandingNameParses(named, Short(kind) + Short(cls), HEADER, name, w);
  }

  /**
   * What a built request says, number by number in network order (section 4.1 of RFC 1035): its identifier, the
   * flags of a recursive query, one question and no records; the question ends with the type and the class.
   */
  lemma RequestReadsBack(name: seq<Byte>, transId: nat, kind: nat, cls: nat, bufLen: nat, b: seq<Byte>)
    requires Build(name, transId, kind, cls, bufLen) == Built(b)
    ensures |b| >= 17 && Number(b, 0) == transId % 0x10000 && Number(b, 2) == 0x0100 && Number(b, 4) == 1
    ensures Number(b, 6) == Number(b, 8) == Number(b, 10) == 0
    ensures Number(b, |b| - 4) == kind % 0x10000 && Number(b, |b| - 2) == cls % 0x10000
  {
    hide Build, Short, Header, Number;
    var bytes := BuiltParts(name, transId, kind, cls, bufLen, b);
    assert b[..HEADER] == bytes[..HEADER];
    HeaderReadsBack(transId, b);
    TailReadsBack(bytes, kind, cls);
  }

  lemma BuiltParts(name: seq<Byte>, transId: nat, kind: nat, cls: nat, bufLen: nat, b: seq<Byte>)
    returns (bytes: seq<Byte>)
    requires Build(name, transId, kind, cls, bufLen) == Built(b)
    ensures |bytes| > HEADER && bytes[..HEADER] == Header(transId) && b == bytes + Short(kind) + Short(cls)
  {
    hide One, WriteFrom, Short, Header, LabelsFit, WireLength;
    bytes := WriteFrom(Header(transId), bufLen, name, false, []).bytes;
    WriteAppends(Header(transId), bufLen, name, false, []);
    PlainWriteLength(Header(transId), bufLen, name);
  }

  lemma HeaderReadsBack(transId: nat, b: seq<Byte>)
    requires |b| >= HEADER && b[..HEADER] == Header(transId)
    ensures Number(b, 0) == transId % 0x10000 && Number(b, 2) == 0x0100 && Number(b, 4) == 1
    ensures Number(b, 6) == Number(b, 8) == Number(b, 10) == 0
  {
    hide Short;
    var h := Header(transId);
    assert h[0..2] == Short(transId) && h[2..4] == Short(0x0100) && h[4..6] == Short(1);
    assert h[6..8] == Short(0) && h[8..10] == Short(0) && h[10..12] == Short(0);
    assert forall i :: 0 <= i < HEADER ==> b[i] == h[i];
  }

  lemma TailReadsBack(bytes: seq<Byte>, kind: nat, cls: nat)
    ensures var b := bytes + Short(kind) + Short(cls);
      Number(b, |bytes|) == kind % 0x10000 && Number(b, |bytes| + 2) == cls % 0x10000
  {
    hide Short;
  }

  /** The name in a built request, and the path on which it stands. */
  lemma NameInRequest(name: seq<Byte>, transId: nat, kind: nat, cls: nat) returns (named: seq<Byte>, w: Walk)
    requires IsCString(name)
    requires Build(name, transId, kind, cls, RequestLen(|name|)).Built?
    ensures Build(name, transId, kind, cls, RequestLen(|name|)).bytes == named + (Short(kind) + Short(cls))
    ensures Stands(named, HEADER, name, w) && |name| <= MAX_NAME
    ensures NoEmptyLabel(name) ==> EndOf(HEADER, w) == HEADER + WireLength(name)
  {
    hide Short, Header, One, WriteFrom, LabelsFit, Labels, Stands, NoEmptyLabel, WireLength, EndOf;
    var bufLen := RequestLen(|name|);
    named := WriteFrom(Header(transId), bufLen, name, false, []).bytes;
    w := WriteStands(Header(transId), bufLen, name, false, []);
    PlainWriteLength(Header(transId), bufLen, name);
    Associate(named, Short(kind), Short(cls));
  }

  lemma Associate(a: seq<Byte>, b: seq<Byte>, c: seq<Byte>)
    ensures a + b + c == a + (b + c)
  {
  }

  /** A name that stands somewhere is read there, also with more bytes behind it. */
  lemma StandingNameParses(bytes: seq<Byte>, more: seq<Byte>, at: nat, name: seq<Byte>, w: Walk)
    requires Stands(bytes, at, name, w) && |name| <= MAX_NAME
    ensures var p := ParseName(bytes + more, at, NAME_BUFFER);
      && p == Good(Join(Labels(name)), EndOf(at, w))
      && (NoEmptyLabel(name) ==> p.name == TrimDot(name))
  {
    FollowsMonotone(bytes, more, at, w);
    TextIsShort(name);
    TextSurvivesIff(name);
    ParseComplete(bytes + more, at, w, NAME_BUFFER);
  }
}
