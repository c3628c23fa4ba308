/**
 * Writing domain names into a DNS message with compression, and the round trip through the parser.
 * `Write` is what dnsname_to_labels computes from the bytes written so far and the label table.
 */
module NameWriting {
  import opened Bytes
  import opened NameParsing

  /** A suffix of a name written earlier, and where it was written. */
  datatype Entry = Entry(suffix: seq<Byte>, pos: nat)

  type Table = seq<Entry>

  const MAX_LABELS := 128
  const MAX_LABEL := 63
  const MAX_NAME := 255
  /** A pointer has 14 bits for the offset. */
  const POINTER_RANGE := 0x4000
  type ErrorCode = c: int | c < 0 witness -1

  const LABEL_TOO_LONG: ErrorCode := -1
  const NO_ROOM: ErrorCode := -2

  /** The position of the first entry for `name`, or -1. */
  function Lookup(table: Table, name: seq<Byte>): (r: int)
    ensures r == -1 ==> forall e :: e in table ==> e.suffix != name
    ensures r != -1 ==> 0 <= r && Entry(name, r) in table
  {
    if table == [] then -1
    else if table[0].suffix == name then table[0].pos
    else Lookup(table[1..], name)
  }

  /** A full table silently forgets the new suffix. */
  function Remember(table: Table, name: seq<Byte>, pos: nat): Table {
    if |table| == MAX_LABELS then table else table + [Entry(name, pos)]
  }

  lemma LowBits(ref: nat)
    ensures ref % 0x4000 / 0x100 == ref / 0x100 % 64 && ref % 0x4000 % 0x100 == ref % 0x100
  {
    var q, r := ref / 0x4000, ref % 0x4000;
    assert ref == q * 0x4000 + r;
    assert ref / 0x100 == q * 64 + r / 0x100;
  }

  /** `ref | 0xc000` cut to 16 bits, high byte first. */
  function Pointer(ref: nat): (p: seq<Byte>)
    ensures |p| == 2 && Number(p, 0) == 0xC000 + ref % 0x4000
  {
    TwoDigits(ref % 0x4000);
    LowBits(ref);
    One(192 + (ref / 256) % 64) + One(ref % 256)
  }

  /** The closing zero, unless the last byte is already one. */
  function Terminate(bytes: seq<Byte>): seq<Byte> {
    if bytes == [] || bytes[|bytes| - 1] != 0 then bytes + One(0) else bytes
  }

  datatype Written = Failed(code: ErrorCode, table: Table) | Written(bytes: seq<Byte>, table: Table)

  function FirstLabel(name: seq<Byte>): Label {
    var dot := IndexOf(name, DOT);
    if dot < 0 then name else name[..dot]
  }

  /** `bytes` with the first label of `name` behind them, its length byte first. */
  function WithLabel(bytes: seq<Byte>, name: seq<Byte>): seq<Byte>
    requires |FirstLabel(name)| <= MAX_LABEL
  {
    bytes + One(|FirstLabel(name)|) + FirstLabel(name)
  }

  /** Writing what is left of a name behind `bytes`. */
  function WriteFrom(bytes: seq<Byte>, bufLen: nat, name: seq<Byte>, compress: bool, table: Table): Written
    decreases |name|
  {
    var ref := if compress then Lookup(table, name) else -1;
    if ref >= 0 then
      if |bytes| + 2 > bufLen then Failed(NO_ROOM, table) else Written(bytes + Pointer(ref), table)
    else
      var dot := IndexOf(name, DOT);
      var l := FirstLabel(name);
      if |l| > MAX_LABEL then Failed(LABEL_TOO_LONG, table)
      else if |bytes| + |l| + 1 > bufLen then Failed(NO_ROOM, table)
      else
        var table' := if compress then Remember(table, name, |bytes|) else table;
        if dot < 0 then Written(Terminate(WithLabel(bytes, name)), table')
        else WriteFrom(WithLabel(bytes, name), bufLen, name[dot + 1..], compress, table')
  }

  function Write(bytes: seq<Byte>, bufLen: nat, name: seq<Byte>, compress: bool, table: Table): Written {
    if |name| > MAX_NAME then Failed(NO_ROOM, table) else WriteFrom(bytes, bufLen, name, compress, table)
  }

  /** The label table of one message. */
  class LabelTable {
    var nLabels: nat
    const labels: array<Entry>

    ghost predicate Valid()
      reads this
    {
      labels.Length == MAX_LABELS && nLabels <= MAX_LABELS
    }

    ghost function Contents(): Table
      requires Valid()
      reads this, labels
    {
      labels[..nLabels]
    }

    constructor ()
      ensures Valid() && fresh(labels) && Contents() == []
    {
      nLabels := 0;
      labels := new Entry[MAX_LABELS];
    }

    method GetPos(name: seq<Byte>) returns (r: int)
      requires Valid()
      ensures r == Lookup(Contents(), name)
    {
      var i := 0;
      while i < nLabels
        invariant i <= nLabels
        invariant Lookup(Contents(), name) == Lookup(Contents()[i..], name)
      {
        if name == labels[i].suffix { return labels[i].pos; }
        i := i + 1;
      }
      return -1;
    }

    method Add(name: seq<Byte>, pos: nat) returns (r: int)
      requires Valid()
      modifies this`nLabels, labels
      ensures Valid() && Contents() == Remember(old(Contents()), name, pos)
      ensures if old(nLabels) == 128 then r == -1 && Contents() == old(Contents())
              else r == 0 && Contents() == old(Contents()) + [Entry(name, pos)]
    {
      if nLabels == MAX_LABELS { return -1; }
      labels[nLabels] := Entry(name, pos);
      nLabels := nLabels + 1;
      return 0;
    }
  }

  /** One label at `j`, its length byte first, and its suffix into the table; or a negative code. */
  method PutLabel(buf: array<Byte>, bufLen: nat, j: nat, rest: seq<Byte>, table: LabelTable?) returns (r: int)
    requires bufLen < buf.Length && j <= buf.Length
    requires table != null ==> table.Valid()
    modifies buf, table, if table == null then {} else {table.labels}
    ensures var l := FirstLabel(rest);
      && r == (if |l| > 63 then -1 else if j + |l| + 1 > bufLen then -2 else j + |l| + 1)
      && (r >= 0 ==> r < buf.Length && buf[..r] == WithLabel(old(buf[..j]), rest))
    ensures table != null ==> table.Valid()
    ensures table != null ==>
              table.Contents() == if r < 0 then old(table.Contents()) else Remember(old(table.Contents()), rest, j)
    ensures forall k :: 0 <= k < j || 0 <= r <= k < buf.Length ==> buf[k] == old(buf[k])
  {
    var l := FirstLabel(rest);
    if |l| > MAX_LABEL { return LABEL_TOO_LONG; }
    if j + |l| + 1 > bufLen { return NO_ROOM; }
    if table != null { var _ := table.Add(rest, j); }
    ghost var before := buf[..j];
    Put(buf, j, One(|l|) + l);
    assert before + (One(|l|) + l) == before + One(|l|) + l;
    return j + |l| + 1;
  }

  /** The closing zero at `j`, unless one is there already. */
  method PutTerminator(buf: array<Byte>, j: nat) returns (end: nat)
    requires j < buf.Length
    modifies buf
    ensures end <= buf.Length && buf[..end] == Terminate(old(buf[..j]))
    ensures forall k :: 0 <= k < j || end <= k < buf.Length ==> buf[k] == old(buf[k])
    ensures j <= end
  {
    end := j;
    if j == 0 || buf[j - 1] != 0 {
      Put(buf, j, [0]);
      end := j + 1;
    }
  }

  /**
   * dnsname_to_labels: the offset after the name, or a negative code.  The closing zero is written
   * without a check against `bufLen`, so `buf` needs one byte more (see `DnsRequest.PlainWriteLength`).
   */
  method DnsnameToLabels(buf: array<Byte>, bufLen: nat, start: nat, name: seq<Byte>, table: LabelTable?)
    returns (r: int)
    requires bufLen < buf.Length && start <= buf.Length
    requires table != null ==> table.Valid()
    modifies buf, table, if table == null then {} else {table.labels}
    ensures forall k :: 0 <= k < start ==> buf[k] == old(buf[k])
    ensures table != null ==> table.Valid()
    ensures
      var entries := if table == null then [] else old(table.Contents());
      var w := Write(old(buf[..start]), bufLen, name, table != null, entries);
      && r == (if w.Failed? then w.code else |w.bytes|)
      && (w.Written? ==>
            r <= buf.Length && buf[..r] == w.bytes && forall k :: r <= k < buf.Length ==> buf[k] == old(buf[k]))
      && (table != null ==> table.Contents() == w.table)
  {
    hide Pointer, Lookup, Remember, Terminate, WithLabel, FirstLabel, IndexOf;
    if |name| > MAX_NAME { return NO_ROOM; }
    var j: nat, rest := start, name;
    ghost var was := buf[..];
    assert was[..start] == buf[..start];
    ghost var goal := Write(buf[..start], bufLen, name, table != null, if table == null then [] else table.Contents());
    while true
      invariant start <= j <= buf.Length
      invariant forall k :: 0 <= k < start || j <= k < buf.Length ==> buf[k] == was[k]
      invariant table != null ==> table.Valid()
      invariant WriteFrom(buf[..j], bufLen, rest, table != null, if table == null then [] else table.Contents()) == goal
      decreases |rest|
    {
      if table != null {
        var ref := table.GetPos(rest);
        if ref >= 0 {
          if j + 2 > bufLen { return NO_ROOM; }
          Put(buf, j, Pointer(ref));
          return j + 2;
        }
      }
      var dot := IndexOf(rest, DOT);
      var next := PutLabel(buf, bufLen, j, rest, table);
      if next < 0 { return next; }
      j := next;
      if dot < 0 { break; }
      rest := rest[dot + 1..];
    }
    r := PutTerminator(buf, j);
  }
}
