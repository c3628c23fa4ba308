/**
 * Putting a tasklet right behind the current one with nothing but insert, remove and run: helper tasklets
 * that are off the ring in between turn it so that insertion at the end becomes insertion behind current.
 */
module Surgery {
  import opened Scheduling
  import opened Sequences

  /** A tasklet that insert and run accept. */
  ghost predicate Ready(s: Scheduler, t: Tasklet)
    reads s`tasklets, t`alive, t`channel
  {
    t in s.tasklets && t.alive && t.channel == null
  }

  /** An idle helper. */
  ghost predicate Spare(s: Scheduler, h: Tasklet)
    reads s`tasklets, s`ring, h`alive, h`channel
  {
    Ready(s, h) && h !in s.ring
  }

  lemma FrontedIs(s: Scheduler, t: Tasklet, a: seq<Tasklet>, b: seq<Tasklet>)
    requires NoRepeats(s.ring) && s.ring == a + [t] + b
    ensures s.Fronted(t) == [t] + b + a
  {
    assert s.ring[|a|] == t;
    assert forall k :: 0 <= k < |s.ring| && s.ring[k] == t ==> k == |a|;
    TurnedAt(a, t, b);
  }

  lemma TurnedAt(a: seq<Tasklet>, t: Tasklet, b: seq<Tasklet>)
    ensures Turned(a + [t] + b, |a|) == [t] + b + a
  {
    assert (a + [t] + b)[..|a|] == a && (a + [t] + b)[|a|..] == [t] + b;
  }

  lemma MinusIs(s: seq<Tasklet>, t: Tasklet, a: seq<Tasklet>, b: seq<Tasklet>)
    requires NoRepeats(s) && s == a + [t] + b
    ensures Minus(s, t) == a + b
  {
    MinusAt(s, t, |a|);
  }

  lemma MinusKeeps(s: seq<Tasklet>, t: Tasklet)
    requires NoRepeats(s) && s != [] && s[0] != t
    ensures Minus(s, t) != [] && Minus(s, t)[0] == s[0] && NoRepeats(Minus(s, t)) && t !in Minus(s, t)
    ensures forall x :: x in s && x != t ==> x in Minus(s, t)
    ensures forall x :: x in Minus(s, t) ==> x in s
  {
    if t in s {
      var k := PlaceOf(s, t);
      MinusAt(s, t, k);
      forall x | x in s && x != t ensures x in Cut(s, k) {
        var i := PlaceOf(s, x);
        assert Cut(s, k)[if i < k then i else i - 1] == x;
      }
    }
  }

  /** insert, remove and run as used here: on tasklets that are ready, so that nothing is refused. */
  method DoInsert(s: Scheduler, t: Tasklet)
    requires s.Inv(null, null) && Ready(s, t) && t !in s.ring
    modifies s`ring, s.tasklets`next, s.tasklets`prev
    ensures s.Inv(null, null) && s.ring == old(s.ring) + [t] && s.current == old(s.current)
  {
    hide Scheduler.Inv;
    ReadyOnRing(s);
    var _ := s.Insert(t);
  }

  method DoRemove(s: Scheduler, t: Tasklet)
    requires s.Inv(null, null) && Ready(s, t) && t != s.current
    modifies s`ring, s.tasklets`next, s.tasklets`prev
    ensures s.Inv(null, null) && s.ring == Minus(old(s.ring), t) && s.current == old(s.current)
  {
    hide Scheduler.Inv;
    ReadyOnRing(s);
    var _ := s.Remove(t);
  }

  /** The same, with the place of the tasklet spelled out. */
  method RunAt(s: Scheduler, t: Tasklet, ghost a: seq<Tasklet>, ghost b: seq<Tasklet>)
    requires s.Inv(null, null) && s.ring == a + [t] + b && Ready(s, t)
    modifies s`current, s`ring, s.tasklets`next, s.tasklets`prev
    ensures s.Inv(null, null) && s.ring == [t] + b + a
  {
    hide Scheduler.Placed, Scheduler.Idle, Scheduler.ChannelsOk, Scheduler.Ticketed, Scheduler.Circular,
         Scheduler.Fronted;
    FrontedIs(s, t, a, b);
    assert s.ring[|a|] == t;
    ReadyOnRing(s);
    var _ := s.Run(t);
  }

  method RemoveAt(s: Scheduler, t: Tasklet, ghost a: seq<Tasklet>, ghost b: seq<Tasklet>)
    requires s.Inv(null, null) && a != [] && s.ring == a + [t] + b && Ready(s, t)
    modifies s`ring, s.tasklets`next, s.tasklets`prev
    ensures s.Inv(null, null) && s.ring == a + b && t !in s.ring
  {
    hide Scheduler.Placed, Scheduler.Idle, Scheduler.ChannelsOk, Scheduler.Ticketed, Scheduler.Circular;
    MinusIs(s.ring, t, a, b);
    assert s.ring[|a|] == t;
    MinusKeeps(s.ring, t);
    DoRemove(s, t);
  }

  method RunOff(s: Scheduler, t: Tasklet)
    requires s.Inv(null, null) && Ready(s, t) && t !in s.ring
    modifies s`current, s`ring, s.tasklets`next, s.tasklets`prev
    ensures s.Inv(null, null) && s.ring == [t] + old(s.ring)
  {
    hide Scheduler.Inv;
    ReadyOnRing(s);
    var _ := s.Run(t);
  }

  /** What is linked is known by its place. */
  lemma Links(s: Scheduler, k: nat)
    requires s.Inv(null, null) && k + 1 < |s.ring|
    ensures s.ring[k].next == s.ring[k + 1] && s.current == s.ring[0]
  {
  }

  /**
   * One round of _finish_helper, which is current: the tasklet two behind it, `c`, is moved in front of it
   * and runs.
   */
  method HelperRound(s: Scheduler, ghost h: Tasklet, ghost t: Tasklet, ghost c: Tasklet, ghost rest: seq<Tasklet>)
    requires s.Inv(null, null) && s.ring == [h, t, c] + rest && c.alive
    modifies s`current, s`ring, s.tasklets`next, s.tasklets`prev
    ensures s.Inv(null, null) && s.ring == [c, h, t] + rest
  {
    hide Scheduler.Inv;
    ReadyOnRing(s);
    Links(s, 0);
    Links(s, 1);
    var target := s.current.next.next;
    RemoveAt(s, target, [h, t], rest);
    assert s.ring == [h, t] + rest;
    RunOff(s, target);
    assert s.ring == [c, h, t] + rest;
  }

  /** The same for _finish_helper2: the tasklet three behind. */
  method Helper2Round(s: Scheduler, ghost h: Tasklet, ghost t: Tasklet, ghost u: Tasklet, ghost c: Tasklet,
    ghost rest: seq<Tasklet>)
    requires s.Inv(null, null) && s.ring == [h, t, u, c] + rest && c.alive
    modifies s`current, s`ring, s.tasklets`next, s.tasklets`prev
    ensures s.Inv(null, null) && s.ring == [c, h, t, u] + rest
  {
    hide Scheduler.Inv;
    ReadyOnRing(s);
    Links(s, 0);
    Links(s, 1);
    Links(s, 2);
    var target := s.current.next.next.next;
    RemoveAt(s, target, [h, t, u], rest);
    RunOff(s, target);
    assert s.ring == [c, h, t, u] + rest;
  }

  /** The helper runs: one turn of the ring, one round of the helper, and it is taken off again. */
  method HelperTrick(s: Scheduler, h: Tasklet, ghost t: Tasklet, ghost c: Tasklet, ghost rest: seq<Tasklet>)
    requires s.Inv(null, null) && s.ring == [c] + rest + [h, t] && Ready(s, h) && c.alive
    modifies s`current, s`ring, s.tasklets`next, s.tasklets`prev
    ensures s.Inv(null, null) && s.ring == [c, t] + rest && h !in s.ring
  {
    hide Scheduler.Inv;
    assert s.ring == ([c] + rest) + [h] + [t];
    RunAt(s, h, [c] + rest, [t]);
    assert s.ring == [h, t, c] + rest;
    HelperRound(s, h, t, c, rest);
    assert s.ring == [c] + [h] + ([t] + rest);
    RemoveAt(s, h, [c], [t] + rest);
    assert s.ring == [c, t] + rest;
  }

  method Helper2Trick(s: Scheduler, h: Tasklet, ghost t: Tasklet, ghost u: Tasklet, ghost c: Tasklet,
    ghost rest: seq<Tasklet>)
    requires s.Inv(null, null) && s.ring == [c] + rest + [h, t, u] && Ready(s, h) && c.alive
    modifies s`current, s`ring, s.tasklets`next, s.tasklets`prev
    ensures s.Inv(null, null) && s.ring == [c, t, u] + rest && h !in s.ring
  {
    hide Scheduler.Inv;
    assert s.ring == ([c] + rest) + [h] + [t, u];
    RunAt(s, h, [c] + rest, [t, u]);
    assert s.ring == [h, t, u, c] + rest;
    Helper2Round(s, h, t, u, c, rest);
    assert s.ring == [c] + [h] + ([t, u] + rest);
    RemoveAt(s, h, [c], [t, u] + rest);
    assert s.ring == [c, t, u] + rest;
  }

  lemma HeadAndTail(r: seq<Tasklet>)
    requires r != []
    ensures r == [r[0]] + r[1..]
  {
  }

  /**
   * Main result on the trick, _insert_after_current_tasklet: current stays, the target comes right behind
   * it, wherever it was before, the others keep their order, and the helper is off the ring again.
   */
  method InsertAfterCurrentTasklet(s: Scheduler, h: Tasklet, t: Tasklet)
    requires s.Inv(null, null) && Ready(s, t) && Spare(s, h) && s.current.alive
    requires t != s.current && h != t
    modifies s`current, s`ring, s.tasklets`next, s.tasklets`prev
    ensures s.Inv(null, null) && s.ring == [old(s.current), t] + Minus(old(s.ring), t)[1..]
    ensures h !in s.ring
  {
    hide Scheduler.Placed, Scheduler.Idle, Scheduler.ChannelsOk, Scheduler.Ticketed, Scheduler.Circular;
    s.RingFacts();
    ghost var was, c := s.ring, s.current;
    MinusKeeps(was, t);
    ghost var rest := Minus(was, t)[1..];
    HeadAndTail(Minus(was, t));
    if s.current.next == s.current {
      DoInsert(s, t);
    } else if s.current.next != t {
      DoRemove(s, t);
      DoInsert(s, h);
      DoInsert(s, t);
      assert s.ring == [c] + rest + [h, t];
      HelperTrick(s, h, t, c, rest);
    } else {
      MinusIs(was, t, [c], was[2..]);
    }
  }

  /** The ring with both targets right behind current, everything else in its old order. */
  ghost function BothBehind(r: seq<Tasklet>, t: Tasklet, u: Tasklet): seq<Tasklet>
    requires r != [] && Minus(Minus(r, t), u) != []
  {
    [r[0], t, u] + Minus(Minus(r, t), u)[1..]
  }

  /** _insert_two_after_current_tasklet: both targets, in order. */
  method InsertTwoAfterCurrentTasklet(s: Scheduler, h: Tasklet, h2: Tasklet, t: Tasklet, u: Tasklet)
    requires s.Inv(null, null) && Ready(s, t) && Ready(s, u) && Spare(s, h) && Spare(s, h2) && s.current.alive
    requires t != u && t != s.current && u != s.current && h != t && h != u && h2 != t && h2 != u
    modifies s`current, s`ring, s.tasklets`next, s.tasklets`prev
    ensures s.Inv(null, null) && Minus(Minus(old(s.ring), t), u) != [] && s.ring == BothBehind(old(s.ring), t, u)
    ensures h !in s.ring && h2 !in s.ring
  {
    hide Scheduler.Placed, Scheduler.Idle, Scheduler.ChannelsOk, Scheduler.Ticketed, Scheduler.Circular, Minus;
    s.RingFacts();
    ghost var was, c := s.ring, s.current;
    MinusKeeps(was, t);
    MinusKeeps(Minus(was, t), u);
    ghost var rest := Minus(Minus(was, t), u)[1..];
    HeadAndTail(Minus(Minus(was, t), u));
    if s.current.next == s.current {
      AloneMinus(was, t, u);
      DoInsert(s, t);
      DoInsert(s, u);
    } else if s.current.next == u {
      SecondMinus(was, t, u);
      DoRemove(s, t);
      assert s.ring == [c] + ([u] + rest);
      DoInsert(s, h);
      DoInsert(s, t);
      assert s.ring == [c] + ([u] + rest) + [h, t];
      HelperTrick(s, h, t, c, [u] + rest);
    } else {
      DoRemove(s, t);
      DoRemove(s, u);
      DoInsert(s, h2);
      DoInsert(s, t);
      DoInsert(s, u);
      assert s.ring == [c] + rest + [h2, t, u];
      Helper2Trick(s, h2, t, u, c, rest);
    }
  }

  lemma AloneMinus(r: seq<Tasklet>, t: Tasklet, u: Tasklet)
    requires |r| == 1 && t != r[0] && u != r[0]
    ensures Minus(Minus(r, t), u) == r
  {
  }

  /** With `u` second already, taking `t` out leaves `u` second. */
  lemma SecondMinus(r: seq<Tasklet>, t: Tasklet, u: Tasklet)
    requires NoRepeats(r) && |r| >= 2 && r[1] == u && t != r[0] && t != u
    ensures |Minus(r, t)| >= 2 && Minus(r, t) == [r[0], u] + Minus(Minus(r, t), u)[1..]
  {
    MinusKeeps(r, t);
    var q := Minus(r, t);
    if t in r {
      var k := PlaceOf(r, t);
      MinusAt(r, t, k);
    }
    assert q[1] == u && u in q;
    MinusIs(q, u, [q[0]], q[2..]);
  }

  lemma ReadyOnRing(s: Scheduler)
    requires s.Inv(null, null)
    ensures forall t :: t in s.ring ==> t in s.tasklets && t.channel == null
  {
  }
}
