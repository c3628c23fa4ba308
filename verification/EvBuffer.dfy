/** The byte buffer: a window that slides over a block of memory, which is a first-in first-out queue of bytes. */
module EvBuffer {
  import opened Bytes

  /** 256 doubled some number of times. */
  predicate Doubled(n: nat) {
    n == 256 || (n > 256 && n % 2 == 0 && Doubled(n / 2))
  }

  datatype Op = Add(data: seq<Byte>) | Expand(room: nat) | Drain(n: nat)

  /** What an operation does to the bytes. */
  function Apply(bytes: seq<Byte>, op: Op): seq<Byte> {
    match op
    case Add(data) => bytes + data
    case Expand(_) => bytes
    case Drain(n) => if n >= |bytes| then [] else bytes[n..]
  }

  function ApplyAll(bytes: seq<Byte>, ops: seq<Op>): seq<Byte> {
    if ops == [] then bytes else Apply(ApplyAll(bytes, ops[..|ops| - 1]), ops[|ops| - 1])
  }

  /** How many bytes an operation asks for. */
  function Wants(op: Op): nat {
    match op
    case Add(data) => |data|
    case Expand(room) => room
    case Drain(_) => 0
  }

  /** Every byte that was ever added, in order. */
  function Stream(ops: seq<Op>): seq<Byte> {
    if ops == [] then []
    else Stream(ops[..|ops| - 1]) + (if ops[|ops| - 1].Add? then ops[|ops| - 1].data else [])
  }

  /** First in, first out: what is left is the stream without its first `gone` bytes. */
  lemma {:induction false} WhatIsLeft(ops: seq<Op>) returns (gone: nat)
    ensures gone <= |Stream(ops)| && ApplyAll([], ops) == Stream(ops)[gone..]
  {
    gone := 0;
    if ops != [] {
      var init, last := ops[..|ops| - 1], ops[|ops| - 1];
      gone := WhatIsLeft(init);
      var left := ApplyAll([], init);
      match last
      case Add(data) => assert (Stream(init) + data)[gone..] == left + data;
      case Expand(_) =>
      case Drain(n) =>
        gone := if n >= |left| then |Stream(ops)| else gone + n;
    }
  }

  function Power(k: nat): nat {
    if k == 0 then 1 else 2 * Power(k - 1)
  }

  lemma {:induction false} DoubledIsPower(n: nat) returns (k: nat)
    requires Doubled(n)
    ensures n == 256 * Power(k)
  {
    if n == 256 {
      k := 0;
    } else {
      k := DoubledIsPower(n / 2);
      k := k + 1;
    }
  }

  function Max(a: int, b: int): int {
    if a < b then b else a
  }

  class Buffer {
    /** orig_buffer, and where in it `buffer` points. */
    var orig: array<Byte>
    var buffer: nat
    var misalign: nat
    var off: nat
    var totallen: nat

    ghost predicate Valid()
      reads this
    {
      && orig.Length == totallen && (totallen == 0 || Doubled(totallen))
      && buffer == misalign && misalign + off <= totallen
    }

    ghost function Contents(): (r: seq<Byte>)
      requires Valid()
      reads this, orig
      ensures |r| == off
    {
      orig[buffer..buffer + off]
    }

    constructor ()
      ensures Valid() && Contents() == [] && totallen == 0 && fresh(orig)
    {
      orig := new Byte[0];
      buffer, misalign, off, totallen := 0, 0, 0, 0;
    }

    /** coio_evbuffer_align */
    method Align()
      requires Valid()
      modifies `buffer, `misalign, orig
      ensures Valid() && Contents() == old(Contents()) && misalign == 0
    {
      forall i | 0 <= i < off { orig[i] := orig[buffer + i]; }
      buffer, misalign := 0, 0;
      assert Contents() == old(Contents());
    }

    /** The size to grow to: doubled until it suffices. */
    method Grown(need: nat) returns (length: nat)
      requires totallen == 0 || Doubled(totallen)
      ensures Doubled(length) && length >= need && length >= totallen
      ensures need > totallen ==> length == 256 || length < 2 * need
    {
      length := totallen;
      if length < 256 { length := 256; }
      while length < need
        invariant Doubled(length) && length >= totallen
        invariant need > totallen ==> length == 256 || length < 2 * need
        decreases need - length
      {
        length := length * 2;
      }
    }

    /** realloc of an aligned block. */
    method Realloc(length: nat)
      requires Valid() && misalign == 0 && length >= totallen && Doubled(length)
      modifies this
      ensures Valid() && Contents() == old(Contents()) && misalign == 0 && totallen == length && fresh(orig)
    {
      var newbuf := new Byte[length];
      forall i | 0 <= i < totallen { newbuf[i] := orig[i]; }
      orig, buffer, totallen := newbuf, 0, length;
      assert Contents() == old(Contents());
    }

    /** coio_evbuffer_expand: room for `datlen` more; memory grows only for what alignment cannot give. */
    method Expand(datlen: nat)
      requires Valid()
      modifies this, orig
      ensures Valid() && Contents() == old(Contents()) && misalign + off + datlen <= totallen
      ensures orig == old(orig) || fresh(orig)
      ensures totallen == old(totallen) || totallen == 256 || totallen < 2 * (off + 2 * datlen)
    {
      var need := misalign + off + datlen;
      if totallen >= need { return; }
      if misalign >= datlen {
        Align();
      } else {
        var length := Grown(need);
        if buffer != 0 { Align(); }
        Realloc(length);
      }
    }

    /** memcpy behind the contents. */
    method Append(data: seq<Byte>)
      requires Valid() && misalign + off + |data| <= totallen
      modifies `off, orig
      ensures Valid() && Contents() == old(Contents()) + data
    {
      forall i | 0 <= i < |data| { orig[buffer + off + i] := data[i]; }
      off := off + |data|;
      assert Contents() == old(Contents()) + data;
    }

    /** coio_evbuffer_add */
    method AddBytes(data: seq<Byte>)
      requires Valid()
      modifies this, orig
      ensures Valid() && Contents() == old(Contents()) + data
      ensures orig == old(orig) || fresh(orig)
      ensures totallen == old(totallen) || totallen == 256 || totallen < 2 * (old(off) + 2 * |data|)
    {
      var need := misalign + off + |data|;
      if totallen < need { Expand(|data|); }
      Append(data);
    }

    /** coio_evbuffer_drain */
    method Drain(len: nat)
      requires Valid()
      modifies `off, `buffer, `misalign
      ensures Valid() && Contents() == if len >= old(off) then [] else old(Contents())[len..]
    {
      if len >= off {
        off, buffer, misalign := 0, 0, 0;
        return;
      }
      buffer, misalign, off := buffer + len, misalign + len, off - len;
      assert Contents() == old(Contents())[len..];
    }

    method Step(op: Op)
      requires Valid()
      modifies this, orig
      ensures Valid() && Contents() == Apply(old(Contents()), op) && (orig == old(orig) || fresh(orig))
      ensures op.Expand? ==> misalign + off + op.room <= totallen
      ensures totallen == old(totallen) || totallen == 256 || totallen < 2 * (old(off) + 2 * Wants(op))
    {
      match op
      case Add(data) => AddBytes(data);
      case Expand(room) => Expand(room);
      case Drain(n) => Drain(n);
    }

    /**
     * Main result: any run refines appending to and dropping from a sequence of bytes, and memory stays
     * within a bound set by the contents and the requests, however many bytes flow through.
     */
    method Run(ops: seq<Op>, ghost most: nat, ghost each: nat)
      requires Valid() && totallen <= Max(256, 2 * most + 4 * each)
      requires forall k :: 0 <= k <= |ops| ==> |ApplyAll(Contents(), ops[..k])| <= most
      requires forall k :: 0 <= k < |ops| ==> Wants(ops[k]) <= each
      modifies this, orig
      ensures Valid() && Contents() == ApplyAll(old(Contents()), ops)
      ensures totallen <= Max(256, 2 * most + 4 * each)
    {
      ghost var start := Contents();
      for k := 0 to |ops|
        invariant Valid() && Contents() == ApplyAll(start, ops[..k]) && (orig == old(orig) || fresh(orig))
        invariant totallen <= Max(256, 2 * most + 4 * each)
      {
        assert ops[..k + 1][..k] == ops[..k];
        Step(ops[k]);
      }
      assert ops[..|ops|] == ops;
    }
  }
}
