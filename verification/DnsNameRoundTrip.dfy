/**
 * What is written is what is read.  Every successful `Write` leaves, at the place where it started, a
 * path that denotes the labels of the name, and keeps the paths of all names written before.
 */
module NameRoundTrip {
  import opened Bytes
  import opened NameParsing
  import opened NameWriting

  /** The labels the wire form can express: an empty label ends the name. */
  function Labels(name: seq<Byte>): seq<Label>
    decreases |name|
  {
    var dot := IndexOf(name, DOT);
    if dot < 0 then if name == [] then [] else [name]
    else if dot == 0 then []
    else [name[..dot]] + Labels(name[dot + 1..])
  }

  /** Every pointer on the path leads strictly backwards. */
  ghost predicate Backward(at: nat, w: Walk)
    decreases w
  {
    match w
    case End => true
    case Over(l, rest) => Backward(at + 1 + |l|, rest)
    case Jump(to, rest) => to < at && Backward(to, rest)
  }

  /** At `at` stands `name`, in backward pointers only. */
  ghost predicate Stands(bytes: seq<Byte>, at: nat, name: seq<Byte>, w: Walk) {
    Follows(bytes, at, w) && LabelsOn(w) == Labels(name) && Backward(at, w)
  }

  ghost predicate EntrySound(bytes: seq<Byte>, e: Entry) {
    e.pos < POINTER_RANGE && exists w :: Stands(bytes, e.pos, e.suffix, w)
  }

  ghost predicate TableSound(bytes: seq<Byte>, table: Table) {
    forall e :: e in table ==> EntrySound(bytes, e)
  }

  lemma EntryMonotone(bytes: seq<Byte>, more: seq<Byte>, e: Entry)
    requires EntrySound(bytes, e)
    ensures EntrySound(bytes + more, e)
  {
    var w :| Stands(bytes, e.pos, e.suffix, w);
    FollowsMonotone(bytes, more, e.pos, w);
    assert Stands(bytes + more, e.pos, e.suffix, w);
  }

  lemma TableMonotone(bytes: seq<Byte>, more: seq<Byte>, table: Table)
    requires TableSound(bytes, table)
    ensures TableSound(bytes + more, table)
  {
    forall e | e in table ensures EntrySound(bytes + more, e) { EntryMonotone(bytes, more, e); }
  }

  /** A name found in the table becomes a pointer to where it stands. */
  lemma PointerStands(bytes: seq<Byte>, name: seq<Byte>, ref: nat) returns (w: Walk)
    requires EntrySound(bytes, Entry(name, ref))
    ensures Stands(bytes + Pointer(ref), |bytes|, name, w)
    ensures EndOf(|bytes|, w) == |bytes| + 2
  {
    var v :| Stands(bytes, ref, name, v);
    FollowsMonotone(bytes, Pointer(ref), ref, v);
    assert Target(bytes + Pointer(ref), |bytes|) == ref;
    w := Jump(ref, v);
  }

  // ---------------------------------------------------------------- text and length of what is written

  function TrimDot(name: seq<Byte>): seq<Byte> {
    if name != [] && name[|name| - 1] == DOT then name[..|name| - 1] else name
  }

  /** Every dot has a label in front of it. */
  predicate NoEmptyLabel(name: seq<Byte>)
    decreases |name|
  {
    var dot := IndexOf(name, DOT);
    dot < 0 || (dot > 0 && NoEmptyLabel(name[dot + 1..]))
  }

  /** Cutting the first label off, in text form. */
  lemma FirstLabelOff(name: seq<Byte>)
    requires IndexOf(name, DOT) > 0
    ensures var dot := IndexOf(name, DOT);
            var rest := name[dot + 1..];
      && Join(Labels(name)) == (if Labels(rest) == [] then name[..dot] else name[..dot] + [DOT] + Join(Labels(rest)))
      && TrimDot(name) == (if rest == [] then name[..dot] else name[..dot] + [DOT] + TrimDot(rest))
  {
    var dot := IndexOf(name, DOT);
    var rest := name[dot + 1..];
    assert name == name[..dot] + [DOT] + rest;
    assert Labels(name)[1..] == Labels(rest);
  }

  lemma {:induction false} TextIsShort(name: seq<Byte>)
    ensures |Join(Labels(name))| <= |name|
    ensures Join(Labels(name)) == [] <==> Labels(name) == []
    decreases |name|
  {
    if IndexOf(name, DOT) > 0 {
      TextIsShort(name[IndexOf(name, DOT) + 1..]);
      FirstLabelOff(name);
    }
  }

  /** The name comes back as it went in, up to a trailing dot. */
  predicate Survives(name: seq<Byte>) {
    Join(Labels(name)) == TrimDot(name)
  }

  lemma SurvivesByFirstLabel(name: seq<Byte>)
    ensures var dot := IndexOf(name, DOT);
      && (dot < 0 ==> Survives(name))
      && (dot == 0 ==> (Survives(name) <==> |name| == 1))
      && (dot > 0 ==>
            (Survives(name) <==> dot + 1 == |name| || (Labels(name[dot + 1..]) != [] && Survives(name[dot + 1..]))))
  {
    var dot := IndexOf(name, DOT);
    if dot > 0 {
      var rest := name[dot + 1..];
      FirstLabelOff(name);
      SamePrefix(name[..dot] + [DOT], Join(Labels(rest)), TrimDot(rest));
    }
  }

  /**
   * Exactly which names come back as they went in, up to a trailing dot: those without an empty label
   * in front of a dot, and the bare dot.
   */
  lemma {:induction false} TextSurvivesIff(name: seq<Byte>)
    ensures Survives(name) <==> NoEmptyLabel(name) || (|name| == 1 && name[0] == DOT)
    decreases |name|
  {
    hide Survives, Join, TrimDot;
    SurvivesByFirstLabel(name);
    var dot := IndexOf(name, DOT);
    if 0 < dot < |name| - 1 {
      TextSurvivesIff(name[dot + 1..]);
      assert Labels(name[dot + 1..]) == [] <==> IndexOf(name[dot + 1..], DOT) == 0;
    }
  }

  lemma SamePrefix(h: seq<Byte>, x: seq<Byte>, y: seq<Byte>)
    ensures h + x == h + y <==> x == y
  {
    if h + x == h + y {
      assert (h + x)[|h|..] == x && (h + y)[|h|..] == y;
    }
  }

  // ---------------------------------------------------------------- one name

  /** Suffixes of at most `n` bytes already stand. */
  ghost predicate ShortOnesStand(bytes: seq<Byte>, table: Table, n: nat) {
    forall e :: e in table && |e.suffix| <= n ==> EntrySound(bytes, e)
  }

  /** What `table'` has on top of `table` stands. */
  ghost predicate NewOnesStand(bytes: seq<Byte>, table: Table, table': Table) {
    forall e :: e in table' ==> e in table || EntrySound(bytes, e)
  }

  lemma ShortOnesForRest(bytes: seq<Byte>, name: seq<Byte>, compress: bool, table: Table)
    requires ShortOnesStand(bytes, table, |name|) && |FirstLabel(name)| <= MAX_LABEL && IndexOf(name, DOT) >= 0
    ensures ShortOnesStand(WithLabel(bytes, name), if compress then Remember(table, name, |bytes|) else table,
                           |name| - IndexOf(name, DOT) - 1)
  {
    var table' := if compress then Remember(table, name, |bytes|) else table;
    forall e | e in table' && |e.suffix| <= |name| - IndexOf(name, DOT) - 1
      ensures EntrySound(WithLabel(bytes, name), e)
    {
      assert e in table;
      EntryMonotone(bytes, One(|FirstLabel(name)|) + FirstLabel(name), e);
      assert WithLabel(bytes, name) == bytes + (One(|FirstLabel(name)|) + FirstLabel(name));
    }
  }

  predicate Extends(long: seq<Byte>, short: seq<Byte>) {
    |short| <= |long| && long[..|short|] == short
  }

  lemma ExtendsBeyondLabel(bytes: seq<Byte>, name: seq<Byte>, r: seq<Byte>)
    requires |FirstLabel(name)| <= MAX_LABEL && Extends(r, WithLabel(bytes, name))
    ensures Extends(r, bytes)
  {
    assert WithLabel(bytes, name)[..|bytes|] == bytes;
    assert r[..|bytes|] == r[..|WithLabel(bytes, name)|][..|bytes|];
  }

  /** Writing never touches the bytes before it. */
  lemma {:induction false} WriteAppends(bytes: seq<Byte>, bufLen: nat, name: seq<Byte>, compress: bool, table: Table)
    requires WriteFrom(bytes, bufLen, name, compress, table).Written?
    ensures Extends(WriteFrom(bytes, bufLen, name, compress, table).bytes, bytes)
    decreases |name|
  {
    if !(compress && Lookup(table, name) >= 0) {
      var dot := IndexOf(name, DOT);
      if dot < 0 {
        ExtendsBeyondLabel(bytes, name, Terminate(WithLabel(bytes, name)));
      } else {
        var table' := if compress then Remember(table, name, |bytes|) else table;
        WriteAppends(WithLabel(bytes, name), bufLen, name[dot + 1..], compress, table');
        ExtendsBeyondLabel(bytes, name,
          WriteFrom(WithLabel(bytes, name), bufLen, name[dot + 1..], compress, table').bytes);
      }
    }
  }

  lemma FrontStays(bytes: seq<Byte>, name: seq<Byte>, r: seq<Byte>)
    requires |FirstLabel(name)| <= MAX_LABEL && Extends(r, WithLabel(bytes, name))
    ensures |bytes| < |r| && r[|bytes|] == |FirstLabel(name)|
    ensures |bytes| + 1 + |FirstLabel(name)| <= |r|
      && r[|bytes| + 1..|bytes| + 1 + |FirstLabel(name)|] == FirstLabel(name)
  {
    var front := WithLabel(bytes, name);
    assert r[|bytes|] == front[|bytes|];
    assert r[|bytes| + 1..|front|] == front[|bytes| + 1..];
  }

  lemma EndStands(bytes: seq<Byte>, at: nat, name: seq<Byte>)
    requires at < |bytes| && bytes[at] == 0 && Labels(name) == []
    ensures Stands(bytes, at, name, End)
  {
  }

  lemma SoleLabelStands(bytes: seq<Byte>, at: nat, name: seq<Byte>)
    requires IndexOf(name, DOT) < 0 && LabelAt(bytes, at, name)
    requires at + 1 + |name| < |bytes| && bytes[at + 1 + |name|] == 0
    ensures Stands(bytes, at, name, Over(name, End))
  {
    hide IndexOf;
    assert Follows(bytes, at + 1 + |name|, End) && Backward(at + 1 + |name|, End);
    assert Follows(bytes, at, Over(name, End)) && Backward(at, Over(name, End));
    assert LabelsOn(Over(name, End)) == [name] + LabelsOn(End);
    assert LabelsOn(Over(name, End)) == [name];
    assert Labels(name) == [name];
  }

  /** The last label and the closing zero. */
  lemma LastLabelStands(bytes: seq<Byte>, name: seq<Byte>) returns (w: Walk)
    requires IndexOf(name, DOT) < 0 && |name| <= MAX_LABEL && IsCString(name)
    ensures var r := Terminate(WithLabel(bytes, name));
            Stands(r, |bytes|, name, w) && EndOf(|bytes|, w) == |r|
  {
    var front := WithLabel(bytes, name);
    var r := Terminate(front);
    assert Extends(r, front);
    FrontStays(bytes, name, r);
    assert front[|front| - 1] == if name == [] then 0 else name[|name| - 1];
    if name == [] {
      EndStands(r, |bytes|, name);
      w := End;
    } else {
      SoleLabelStands(r, |bytes|, name);
      w := Over(name, End);
    }
  }

  /** The first label of `name` stands in front of the rest. */
  lemma InnerLabelStands(bytes: seq<Byte>, name: seq<Byte>, r: seq<Byte>, v: Walk) returns (w: Walk)
    requires IndexOf(name, DOT) >= 0 && |FirstLabel(name)| <= MAX_LABEL && Extends(r, WithLabel(bytes, name))
    requires Stands(r, |bytes| + 1 + |FirstLabel(name)|, name[IndexOf(name, DOT) + 1..], v)
    ensures Stands(r, |bytes|, name, w)
    ensures FirstLabel(name) != [] ==> EndOf(|bytes|, w) == EndOf(|bytes| + 1 + |FirstLabel(name)|, v)
  {
    FrontStays(bytes, name, r);
    if FirstLabel(name) == [] {
      EndStands(r, |bytes|, name);
      w := End;
    } else {
      w := Over(FirstLabel(name), v);
    }
  }

  /** `name` stands at `at` in what was written, and so does every new suffix; a clean name ends where writing did. */
  ghost predicate Done(r: Written, at: nat, name: seq<Byte>, w: Walk, table: Table) {
    && r.Written?
    && Stands(r.bytes, at, name, w)
    && (NoEmptyLabel(name) ==> EndOf(at, w) == |r.bytes|)
    && NewOnesStand(r.bytes, table, r.table)
  }

  lemma KnownNameDone(bytes: seq<Byte>, bufLen: nat, name: seq<Byte>, table: Table) returns (w: Walk)
    requires ShortOnesStand(bytes, table, |name|) && Lookup(table, name) >= 0
    requires WriteFrom(bytes, bufLen, name, true, table).Written?
    ensures Done(WriteFrom(bytes, bufLen, name, true, table), |bytes|, name, w, table)
  {
    var ref := Lookup(table, name);
    w := PointerStands(bytes, name, ref);
    assert WriteFrom(bytes, bufLen, name, true, table) == Written(bytes + Pointer(ref), table);
  }

  lemma LastLabelDone(bytes: seq<Byte>, name: seq<Byte>, table: Table, table': Table) returns (w: Walk)
    requires IndexOf(name, DOT) < 0 && |name| <= MAX_LABEL && IsCString(name) && |bytes| < POINTER_RANGE
    requires table' == table || table' == Remember(table, name, |bytes|)
    ensures Done(Written(Terminate(WithLabel(bytes, name)), table'), |bytes|, name, w, table)
  {
    w := LastLabelStands(bytes, name);
    NewOnesGrow(Terminate(WithLabel(bytes, name)), |bytes|, name, w, table, table', table');
  }

  /** From the rest of the name to the whole name. */
  lemma InnerLabelDone(bytes: seq<Byte>, name: seq<Byte>, table: Table, table': Table, r: Written, v: Walk)
    returns (w: Walk)
    requires IndexOf(name, DOT) >= 0 && |FirstLabel(name)| <= MAX_LABEL && |bytes| < POINTER_RANGE
    requires table' == table || table' == Remember(table, name, |bytes|)
    requires Done(r, |WithLabel(bytes, name)|, name[IndexOf(name, DOT) + 1..], v, table')
    requires Extends(r.bytes, WithLabel(bytes, name))
    ensures Done(r, |bytes|, name, w, table)
  {
    w := InnerLabelStands(bytes, name, r.bytes, v);
    NewOnesGrow(r.bytes, |bytes|, name, w, table, table', r.table);
  }

  /** A name that is not known is written as its first label, and what is behind it as the rest. */
  lemma WriteSteps(bytes: seq<Byte>, bufLen: nat, name: seq<Byte>, compress: bool, table: Table)
    requires WriteFrom(bytes, bufLen, name, compress, table).Written? && !(compress && Lookup(table, name) >= 0)
    ensures var table', dot := if compress then Remember(table, name, |bytes|) else table, IndexOf(name, DOT);
      && |FirstLabel(name)| <= MAX_LABEL && |bytes| < bufLen && (dot < 0 ==> |name| <= MAX_LABEL)
      && WriteFrom(bytes, bufLen, name, compress, table) ==
           if dot < 0 then Written(Terminate(WithLabel(bytes, name)), table')
           else WriteFrom(WithLabel(bytes, name), bufLen, name[dot + 1..], compress, table')
  {
  }

  /**
   * The heart of the round trip.  `table` may hold suffixes longer than `name` that are still being
   * written; shorter or equal ones must stand already.  Entries added here stand at the end.
   */
  lemma {:induction false} WriteStands(bytes: seq<Byte>, bufLen: nat, name: seq<Byte>, compress: bool, table: Table)
    returns (w: Walk)
    requires bufLen <= POINTER_RANGE && IsCString(name) && ShortOnesStand(bytes, table, |name|)
    requires WriteFrom(bytes, bufLen, name, compress, table).Written?
    ensures Done(WriteFrom(bytes, bufLen, name, compress, table), |bytes|, name, w, table)
    decreases |name|
  {
    hide Done, Stands, EntrySound, ShortOnesStand, NewOnesStand, Pointer, Terminate, WithLabel, NoEmptyLabel, Labels,
         One, Remember, Lookup, Extends, IndexOf, FirstLabel, WriteFrom;
    var dot := IndexOf(name, DOT);
    var table' := if compress then Remember(table, name, |bytes|) else table;
    if compress && Lookup(table, name) >= 0 {
      w := KnownNameDone(bytes, bufLen, name, table);
      return;
    }
    WriteSteps(bytes, bufLen, name, compress, table);
    if dot < 0 {
      w := LastLabelDone(bytes, name, table, table');
    } else {
      ShortOnesForRest(bytes, name, compress, table);
      var v := WriteStands(WithLabel(bytes, name), bufLen, name[dot + 1..], compress, table');
      var r := WriteFrom(WithLabel(bytes, name), bufLen, name[dot + 1..], compress, table');
      WriteAppends(WithLabel(bytes, name), bufLen, name[dot + 1..], compress, table');
      w := InnerLabelDone(bytes, name, table, table', r, v);
    }
  }

  lemma NewOnesGrow(bytes: seq<Byte>, at: nat, name: seq<Byte>, w: Walk, table: Table, table': Table, table'': Table)
    requires at < POINTER_RANGE && Stands(bytes, at, name, w)
    requires table' == table || table' == Remember(table, name, at)
    requires NewOnesStand(bytes, table', table'')
    ensures NewOnesStand(bytes, table, table'')
  {
    assert EntrySound(bytes, Entry(name, at));
  }

  // ---------------------------------------------------------------- whole messages

  /** A message is written as names, sharing one table, with other bytes between them. */
  datatype Item = Name(text: seq<Byte>) | Raw(data: seq<Byte>)

  /** The message so far and the offset where each item starts. */
  datatype Message = Message(bytes: seq<Byte>, table: Table, places: seq<nat>)

  function Compose(items: seq<Item>, bufLen: nat): Option<Message>
    decreases |items|
  {
    if items == [] then Some(Message([], [], []))
    else
      var before := Compose(items[..|items| - 1], bufLen);
      if before.None? then None
      else
        var m := before.value;
        match items[|items| - 1]
        case Raw(data) => Some(Message(m.bytes + data, m.table, m.places + [|m.bytes|]))
        case Name(text) =>
          var r := Write(m.bytes, bufLen, text, true, m.table);
          if r.Failed? then None else Some(Message(r.bytes, r.table, m.places + [|m.bytes|]))
  }

  /** `text` stands at `at`; if it is clean, reading it ends at `next`. */
  ghost predicate ReadsBack(bytes: seq<Byte>, at: nat, text: seq<Byte>, next: nat) {
    exists w :: Stands(bytes, at, text, w) && (NoEmptyLabel(text) ==> EndOf(at, w) == next)
  }

  function NextPlace(m: Message, i: nat): nat {
    if i + 1 < |m.places| then m.places[i + 1] else |m.bytes|
  }

  ghost predicate NameReadsBack(m: Message, i: nat, item: Item)
    requires i < |m.places|
  {
    item.Name? ==> ReadsBack(m.bytes, m.places[i], item.text, NextPlace(m, i))
  }

  ghost predicate MessageSound(items: seq<Item>, m: Message) {
    && |m.places| == |items| && TableSound(m.bytes, m.table)
    && forall i :: 0 <= i < |items| ==> NameReadsBack(m, i, items[i])
  }

  lemma ReadsBackMonotone(bytes: seq<Byte>, more: seq<Byte>, at: nat, text: seq<Byte>, next: nat)
    requires ReadsBack(bytes, at, text, next)
    ensures ReadsBack(bytes + more, at, text, next)
  {
    var w :| Stands(bytes, at, text, w) && (NoEmptyLabel(text) ==> EndOf(at, w) == next);
    FollowsMonotone(bytes, more, at, w);
    assert Stands(bytes + more, at, text, w);
  }

  /** Appending an item keeps every earlier name readable. */
  lemma EarlierNamesStay(items: seq<Item>, m: Message, bytes: seq<Byte>, i: nat)
    requires i < |items| == |m.places| && NameReadsBack(m, i, items[i])
    requires Extends(bytes, m.bytes)
    ensures NameReadsBack(Message(bytes, m.table, m.places + [|m.bytes|]), i, items[i])
  {
    if items[i].Name? {
      ReadsBackMonotone(m.bytes, bytes[|m.bytes|..], m.places[i], items[i].text, NextPlace(m, i));
      assert m.bytes + bytes[|m.bytes|..] == bytes;
    }
  }

  lemma {:induction false} ComposeSound(items: seq<Item>, bufLen: nat)
    requires bufLen <= POINTER_RANGE && Compose(items, bufLen).Some?
    requires forall item :: item in items && item.Name? ==> IsCString(item.text)
    ensures MessageSound(items, Compose(items, bufLen).value)
    decreases |items|
  {
    if items != [] {
      var n := |items| - 1;
      ComposeSound(items[..n], bufLen);
      var m := Compose(items[..n], bufLen).value;
      var m' := Compose(items, bufLen).value;
      if items[n].Raw? {
        TableMonotone(m.bytes, items[n].data, m.table);
      } else {
        LastNameReadsBack(m, bufLen, items[n].text);
        WriteAppends(m.bytes, bufLen, items[n].text, true, m.table);
      }
      forall i | 0 <= i < |items| ensures NameReadsBack(m', i, items[i]) {
        if i < n {
          EarlierNamesStay(items[..n], m, m'.bytes, i);
        }
      }
    }
  }

  lemma LastNameReadsBack(m: Message, bufLen: nat, text: seq<Byte>)
    requires bufLen <= POINTER_RANGE && IsCString(text) && TableSound(m.bytes, m.table)
    requires Write(m.bytes, bufLen, text, true, m.table).Written?
    ensures var r := Write(m.bytes, bufLen, text, true, m.table);
            ReadsBack(r.bytes, |m.bytes|, text, |r.bytes|) && TableSound(r.bytes, r.table)
  {
    var r := Write(m.bytes, bufLen, text, true, m.table);
    var w := WriteStands(m.bytes, bufLen, text, true, m.table);
    WriteAppends(m.bytes, bufLen, text, true, m.table);
    TableMonotone(m.bytes, r.bytes[|m.bytes|..], m.table);
    assert m.bytes + r.bytes[|m.bytes|..] == r.bytes;
  }

  /** Room for any name and its closing zero, as in reply_parse. */
  const NAME_BUFFER := 256

  lemma {:induction false} NamesAreShort(items: seq<Item>, bufLen: nat, i: nat)
    requires Compose(items, bufLen).Some? && i < |items| && items[i].Name?
    ensures |items[i].text| <= MAX_NAME
    decreases |items|
  {
    if i + 1 < |items| {
      NamesAreShort(items[..|items| - 1], bufLen, i);
    }
  }

  /**
   * Main result: in every message that was composed without an error, each name parses back to the
   * labels it was written from; a clean name parses to its own text (less a trailing dot) and leaves
   * the reader at the start of the next item.
   */
  lemma MessageRoundTrip(items: seq<Item>, bufLen: nat, i: nat)
    requires bufLen <= POINTER_RANGE && Compose(items, bufLen).Some?
    requires forall item :: item in items && item.Name? ==> IsCString(item.text)
    requires i < |items| && items[i].Name?
    ensures |Compose(items, bufLen).value.places| == |items|
    ensures var m := Compose(items, bufLen).value;
            var p := ParseName(m.bytes, m.places[i], NAME_BUFFER);
            p.Good? && p.name == Join(Labels(items[i].text))
            && (NoEmptyLabel(items[i].text) ==> p == Good(TrimDot(items[i].text), NextPlace(m, i)))
  {
    ComposeSound(items, bufLen);
    var m := Compose(items, bufLen).value;
    var text := items[i].text;
    assert NameReadsBack(m, i, items[i]);
    var w :| Stands(m.bytes, m.places[i], text, w)
          && (NoEmptyLabel(text) ==> EndOf(m.places[i], w) == NextPlace(m, i));
    NamesAreShort(items, bufLen, i);
    TextIsShort(text);
    TextSurvivesIff(text);
    ParseComplete(m.bytes, m.places[i], w, NAME_BUFFER);
  }
}
