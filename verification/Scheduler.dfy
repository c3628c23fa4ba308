/** Tasklets in a ring of runnables, and channels whose queues use the same links. */
module Scheduling {
  import opened Bytes
  import opened Sequences

  type Value = nat

  class Tasklet {
    /** In the ring of runnables, or in the queue of `channel`. */
    var next: Tasklet?
    var prev: Tasklet?
    var alive: bool
    /** The channel it is blocked on (_channel_weak). */
    var channel: Channel?
    /** What it is sending, or was handed (_data). */
    var data: Option<Value>
    /** The handover, by channel and number, whose value it has yet to return from receive. */
    ghost var source: Channel?
    ghost var turn: nat

    constructor ()
      ensures next == prev == null && !alive && channel == null && data == None && source == null
    {
      next, prev, alive, channel, data, source, turn := null, null, false, null, None, null, 0;
    }
  }

  /** One circular doubly linked ring. */
  ghost predicate Linked(s: seq<Tasklet>)
    reads s`next, s`prev
  {
    && (forall i {:trigger s[i].next} :: 0 <= i < |s| ==> s[i].next == s[if i + 1 == |s| then 0 else i + 1])
    && (forall i {:trigger s[i].prev} :: 0 <= i < |s| ==> s[i].prev == s[if i == 0 then |s| - 1 else i - 1])
  }

  datatype Refusal = Accepted | Refused

  datatype Thrown = Ignored | Raised | Switched

  datatype Ending = Finished | Failed

  /** What the current tasklet does next; tasklets and channels are named by their age. */
  datatype Input =
    | New
    | Open(preference: int)
    | Yield
    | Leave
    | Add(t: nat)
    | Drop(t: nat)
    | SwitchTo(t: nat)
    | Kill(t: nat)
    | End(e: Ending)
    | Take(c: nat)
    | Give(c: nat, value: Value)
    | Return

  datatype Received = Got(value: Value) | Waits | Deadlock

  datatype SendResult = Sent | Blocks | NoRunnable

  /** What there is on a channel. */
  datatype Line = Line(balance: int, preference: int, items: seq<Tasklet>, sends: seq<Value>, answers: map<nat, Value>)

  /**
   * The runnables, the channels, the channels that tasklets are blocked on, who is alive, the channels with a stale
   * waiter, and the receive that current has to return from.
   */
  datatype Scene = Scene(main: Tasklet, ring: seq<Tasklet>, lines: map<Channel, Line>, on: map<Tasklet, Channel?>,
    alive: set<Tasklet>, stale: set<Channel>, source: Channel?, turn: nat)

  /** What there is, with the names of tasklets and channels. */
  datatype Record = Record(ts: seq<Tasklet>, cs: seq<Channel>, now: Scene)

  // ---------------------------------------------------------------- what one step does, on these values

  ghost predicate Same(a: Scene, b: Scene) {
    b.ring == a.ring && b.lines == a.lines && b.alive == a.alive
  }

  /** What is left of the ring when current leaves it. */
  ghost function RestIn(a: Scene): seq<Tasklet>
    requires a.ring != []
  {
    if |a.ring| == 1 then [a.main] else a.ring[1..]
  }

  ghost function BlockedOn(a: Scene, t: Tasklet): (c: Channel?)
    ensures c != null ==> c in a.lines
  {
    if t in a.on && a.on[t] != null && a.on[t] in a.lines then a.on[t] else null
  }

  /** It waits as the last of several. */
  ghost predicate LastIn(a: Scene, t: Tasklet) {
    var c := BlockedOn(a, t);
    c != null && |a.lines[c].items| >= 2 && t == a.lines[c].items[|a.lines[c].items| - 1]
  }

  ghost predicate StuckIn(a: Scene) {
    |a.ring| == 1 && (a.ring[0] == a.main || BlockedOn(a, a.main) != null)
  }

  /** `t` comes off its channel, if it is blocked: the others keep their order, and the balance moves towards zero. */
  ghost predicate OffLine(before: map<Channel, Line>, c: Channel?, t: Tasklet, after: map<Channel, Line>) {
    && after.Keys == before.Keys && (forall o :: o in before && o != c ==> after[o] == before[o])
    && (c != null && c in before ==>
          && after[c].items == Minus(before[c].items, t) && after[c].preference == before[c].preference
          && after[c].answers == before[c].answers
          && after[c].balance == before[c].balance + if before[c].balance < 0 then 1 else -1)
  }

  lemma NobodyOff(lines: map<Channel, Line>, t: Tasklet)
    ensures OffLine(lines, null, t, lines)
  {
  }

  /** The waiter that was met is runnable: behind the others, or in front of them, and then current goes behind. */
  ghost function MetRing(a: Scene, t: Tasklet, behind: bool): seq<Tasklet>
    requires a.ring != []
  {
    if behind then a.ring + [t] else [t] + a.ring[1..] + [a.ring[0]]
  }

  ghost predicate Gives(a: Scene, c: Channel, value: Value, b: Scene)
    requires a.ring != [] && c in a.lines
  {
    var l := a.lines[c];
    if (l.balance < 0 && l.preference < 0 && c in a.stale) || (l.balance >= 0 && StuckIn(a)) then Same(a, b)
    else
      var sent := l.(balance := l.balance + 1, sends := l.sends + [value]);
      && b.alive == a.alive
      && if l.balance < 0 then
           && l.items != [] && b.lines == a.lines[c := sent.(items := l.items[1..])]
           && b.ring == MetRing(a, l.items[0], l.preference >= 0)
         else b.lines == a.lines[c := sent.(items := l.items + [a.ring[0]])] && b.ring == RestIn(a)
  }

  /** The mirror image; a value that is received at once is that of the send with the same number. */
  ghost predicate Takes(a: Scene, c: Channel, b: Scene)
    requires a.ring != [] && c in a.lines
  {
    var l := a.lines[c];
    if (l.balance > 0 && l.preference >= 0 && c in a.stale) || (l.balance <= 0 && StuckIn(a)) then Same(a, b)
    else
      var n, taken := |l.sends| - l.balance, l.(balance := l.balance - 1);
      && b.alive == a.alive
      && if l.balance > 0 then
           && l.items != [] && 0 <= n
           && b.lines == a.lines[c := taken.(items := l.items[1..], answers := l.answers[n := l.sends[n]])]
           && b.ring == MetRing(a, l.items[0], l.preference < 0)
         else b.lines == a.lines[c := taken.(items := l.items + [a.ring[0]])] && b.ring == RestIn(a)
  }

  ghost function FrontedIn(ring: seq<Tasklet>, t: Tasklet): seq<Tasklet> {
    if t in ring then var k :| 0 <= k < |ring| && ring[k] == t; Turned(ring, k) else [t] + ring
  }

  /** What is done to a tasklet. */
  ghost predicate Treats(a: Scene, input: Input, t: Tasklet, b: Scene)
    requires a.ring != []
  {
    var blocked := BlockedOn(a, t) != null;
    b.alive == a.alive && match input
      case Add(_) =>
        b.lines == a.lines && b.ring == if t !in a.alive || blocked || t in a.ring then a.ring else a.ring + [t]
      case Drop(_) => b.lines == a.lines && b.ring == if t == a.ring[0] || blocked then a.ring else Minus(a.ring, t)
      case SwitchTo(_) =>
        b.lines == a.lines && b.ring == if t !in a.alive || blocked then a.ring else FrontedIn(a.ring, t)
      case _ =>
        if LastIn(a, t) || t !in a.alive || t == a.ring[0] then Same(a, b)
        else OffLine(a.lines, BlockedOn(a, t), t, b.lines) && b.ring == FrontedIn(a.ring, t)
  }

  /** The ring goes on without current, or with main alone, off its channel then. */
  ghost predicate GoesOn(a: Scene, b: Scene)
    requires a.ring != []
  {
    && b.ring == RestIn(a)
    && if |a.ring| == 1 && a.ring[0] != a.main then OffLine(a.lines, BlockedOn(a, a.main), a.main, b.lines)
       else b.lines == a.lines
  }

  /** The receive with the number `n` returned: its answer is the value of the send with that number. */
  ghost predicate AnswersOn(before: map<Channel, Line>, c: Channel, n: nat, after: map<Channel, Line>) {
    && c in before && n < |before[c].sends|
    && after == before[c := before[c].(answers := before[c].answers[n := before[c].sends[n]])]
  }

  /** What current does about itself. */
  ghost predicate Acts(a: Scene, input: Input, b: Scene)
    requires a.ring != []
  {
    match input
    case Yield => b.lines == a.lines && b.alive == a.alive && b.ring == a.ring[1..] + [a.ring[0]]
    case Leave =>
      if |a.ring| == 1 && a.ring[0] != a.main && LastIn(a, a.main) then Same(a, b)
        else GoesOn(a, b) && b.alive == a.alive
    case End(e) =>
      if a.ring[0] == a.main || (LastIn(a, a.main) && (e == Failed || |a.ring| == 1)) then Same(a, b)
      else
        && b.alive == a.alive - {a.ring[0]}
        && if e == Failed && |a.ring| > 1 then
             && b.ring == [a.main] + Minus(a.ring, a.main)[1..]
             && OffLine(a.lines, BlockedOn(a, a.main), a.main, b.lines)
           else GoesOn(a, b)
    case Return =>
      && b.ring == a.ring && b.alive == a.alive
      && if a.source == null then b.lines == a.lines else AnswersOn(a.lines, a.source, a.turn, b.lines)
    case _ => Same(a, b)
  }

  /** What one step leads to; an input for a tasklet or channel that is not there yet does nothing. */
  ghost predicate Leads(a: Record, input: Input, b: Record)
    requires a.now.ring != []
  {
    && (!input.New? ==> b.ts == a.ts) && (!input.Open? ==> b.cs == a.cs)
    && match input
       case New =>
         && |b.now.ring| == |a.now.ring| + 1 && b.now.ring[..|a.now.ring|] == a.now.ring
         && b.now.lines == a.now.lines
         && var t := b.now.ring[|a.now.ring|];
           b.ts == a.ts + [t] && b.now.alive == a.now.alive + {t} && t !in a.now.on
       case Open(preference) =>
         && |b.cs| == |a.cs| + 1 && b.cs[..|a.cs|] == a.cs && b.cs[|a.cs|] !in a.now.lines
         && b.now.lines == a.now.lines[b.cs[|a.cs|] := Line(0, preference, [], [], map[])]
         && b.now.ring == a.now.ring && b.now.alive == a.now.alive
       case Take(c) =>
         if c < |a.cs| && a.cs[c] in a.now.lines then Takes(a.now, a.cs[c], b.now) else Same(a.now, b.now)
       case Give(c, value) =>
         if c < |a.cs| && a.cs[c] in a.now.lines then Gives(a.now, a.cs[c], value, b.now) else Same(a.now, b.now)
       case Add(t) => if t < |a.ts| then Treats(a.now, input, a.ts[t], b.now) else Same(a.now, b.now)
       case Drop(t) => if t < |a.ts| then Treats(a.now, input, a.ts[t], b.now) else Same(a.now, b.now)
       case SwitchTo(t) => if t < |a.ts| then Treats(a.now, input, a.ts[t], b.now) else Same(a.now, b.now)
       case Kill(t) => if t < |a.ts| then Treats(a.now, input, a.ts[t], b.now) else Same(a.now, b.now)
       case _ => Acts(a.now, input, b.now)
  }

  ghost predicate Tells(story: seq<Record>, inputs: seq<Input>)
    requires |story| == |inputs| + 1
  {
    forall k :: 0 <= k < |inputs| ==> story[k].now.ring != [] && Leads(story[k], inputs[k], story[k + 1])
  }

  lemma NothingTold(story: seq<Record>)
    requires |story| == 1
    ensures Tells(story, [])
  {
  }

  lemma TellsOn(story: seq<Record>, inputs: seq<Input>, k: nat, now: Record)
    requires k < |inputs| && |story| == k + 1 && Tells(story, inputs[..k])
    requires story[k].now.ring != [] && Leads(story[k], inputs[k], now)
    ensures Tells(story + [now], inputs[..k + 1])
  {
    hide Leads;
    var more := story + [now];
    forall i | 0 <= i < k + 1 ensures more[i].now.ring != [] && Leads(more[i], inputs[..k + 1][i], more[i + 1]) {
      if i < k { assert inputs[..k][i] == inputs[i] && Leads(story[i], inputs[..k][i], story[i + 1]); }
    }
  }

  class Channel {
    /** Senders waiting, or minus the receivers waiting. */
    var balance: int
    var preference: int
    var queue: Tasklet?
    var queueLast: Tasklet?
    /** The queue, from its head. */
    ghost var items: seq<Tasklet>
    /** Every value sent, in order of the sends; every tasklet that received, in order of the receives. */
    ghost var sends: seq<Value>
    ghost var takes: seq<Tasklet>
    /** What receives returned, by their number. */
    ghost var answers: map<nat, Value>

    constructor (preference: int)
      ensures Linked() && Tail() && Matched() && items == [] && sends == [] && takes == [] && answers == map[]
      ensures this.preference == preference && balance == 0
    {
      balance, this.preference, queue, queueLast := 0, preference, null, null;
      items, sends, takes, answers := [], [], [], map[];
    }

    /** The queue from its head on; nothing is said about what is in front of the head. */
    ghost predicate Linked()
      reads `queue, `items, items`next, items`prev
    {
      && NoRepeats(items)
      && queue == (if items == [] then null else items[0])
      && (forall i {:trigger items[i].next} :: 0 <= i < |items| ==>
            items[i].next == if i + 1 == |items| then null else items[i + 1])
      && (forall i {:trigger items[i].prev} :: 0 < i < |items| ==> items[i].prev == items[i - 1])
    }

    ghost predicate Tail()
      reads `queueLast, `items
    {
      queueLast == if items == [] then null else items[|items| - 1]
    }

    /** There are waiters, but no end to append the next one to. */
    ghost predicate EndLost()
      reads `queue, `queueLast, `items
    {
      items != [] && queue != null && queueLast == null
    }

    /** How many sends met their receive. */
    ghost function Met(): (n: nat)
      reads `sends, `takes
      ensures n <= |sends| && n <= |takes|
    {
      if |sends| < |takes| then |sends| else |takes|
    }

    /**
     * The balance is sends minus receives and the signed length of the queue; those who wait are the
     * latest of the side that is ahead, in order; the n-th receive returned the value of the n-th send.
     */
    ghost predicate Matched()
      reads `balance, `items, `sends, `takes, `answers, items`data
    {
      MatchedBy(items)
    }

    ghost predicate MatchedBy(s: seq<Tasklet>)
      reads `balance, `sends, `takes, `answers, s`data
    {
      && (forall n :: n in answers ==> n < Met() && answers[n] == sends[n])
      && balance == |sends| - |takes|
      && (balance >= 0 ==> |s| == balance && forall i :: 0 <= i < balance ==> s[i].data == Some(sends[|takes| + i]))
      && (balance <= 0 ==> |s| == -balance && forall i :: 0 <= i < -balance ==> s[i] == takes[|sends| + i])
    }

    ghost function Now(): Line
      reads this
    {
      Line(balance, preference, items, sends, answers)
    }

    // -------------------------------------------------------------- the queue

    /** At the end of the queue. */
    method Append(t: Tasklet)
      requires Linked() && Tail() && t !in items
      modifies `queue, `queueLast, `items, items`next, t`next, t`prev
      ensures Linked() && Tail() && items == old(items) + [t]
    {
      if queue != null {
        queueLast.next := t;
      } else {
        queue := t;
      }
      t.prev := queueLast;
      t.next := null;
      queueLast := t;
      items := items + [t];
    }

    /** A sender starts to wait. */
    method AppendSender(t: Tasklet)
      requires Linked() && Tail() && Matched() && t !in items && balance >= 0 && t.data.Some?
      modifies this, items`next, t`next, t`prev
      ensures Linked() && Tail() && Matched() && items == old(items) + [t] && balance == old(balance) + 1
      ensures sends == old(sends) + [t.data.value] && takes == old(takes) && answers == old(answers)
        && preference == old(preference)
    {
      Append(t);
      balance := balance + 1;
      sends := sends + [t.data.value];
    }

    /** A receiver starts to wait. */
    method AppendReceiver(t: Tasklet)
      requires Linked() && Tail() && Matched() && t !in items && balance <= 0
      modifies this, items`next, t`next, t`prev
      ensures Linked() && Tail() && Matched() && items == old(items) + [t] && balance == old(balance) - 1
      ensures takes == old(takes) + [t] && sends == old(sends) && answers == old(answers)
        && preference == old(preference)
    {
      Append(t);
      balance := balance - 1;
      takes := takes + [t];
    }

    /** Takes the head off.  Its `prev` is left as it was if it was alone. */
    method Pop() returns (t: Tasklet)
      requires Linked() && Tail() && items != []
      modifies `queue, `queueLast, `items, items`next, items`prev
      ensures Linked() && Tail() && t == old(items)[0] && items == old(items)[1..]
      ensures t !in items && t.next == null
      ensures t.prev == if |old(items)| >= 2 then null else old(t.prev)
      ensures items != [] ==> items[0].prev == t
    {
      t := queue;
      queue := t.next;
      if t.next != null {
        t.next, t.prev := null, null;
      } else {
        queueLast := null;
      }
      items := items[1..];
    }

    /** A receive meets the sender at the head. */
    method PopSender(taker: Tasklet) returns (t: Tasklet)
      requires Linked() && Tail() && Matched() && balance > 0
      modifies this, items`next, items`prev
      ensures Linked() && Tail() && Matched() && t == old(items)[0] && items == old(items)[1..]
      ensures t !in items && t.next == null && balance == old(balance) - 1
      ensures t.prev == if |old(items)| >= 2 then null else old(t.prev)
      ensures items != [] ==> items[0].prev == t
      ensures takes == old(takes) + [taker] && sends == old(sends) && preference == old(preference)
      ensures |old(takes)| < |sends| && t.data == Some(sends[|old(takes)|])
      ensures answers == old(answers)[|old(takes)| := sends[|old(takes)|]]
    {
      balance := balance - 1;
      t := Pop();
      answers := answers[|takes| := t.data.value];
      takes := takes + [taker];
    }

    /** A send meets the receiver at the head. */
    method PopReceiver(value: Value) returns (t: Tasklet)
      requires Linked() && Tail() && Matched() && balance < 0
      modifies this, items`next, items`prev
      ensures Linked() && Tail() && Matched() && t == old(items)[0] && items == old(items)[1..]
      ensures t !in items && t.next == null && balance == old(balance) + 1
      ensures t.prev == if |old(items)| >= 2 then null else old(t.prev)
      ensures items != [] ==> items[0].prev == t
      ensures sends == old(sends) + [value] && takes == old(takes) && answers == old(answers)
        && preference == old(preference)
      ensures |old(sends)| < |takes| && t == takes[|old(sends)|]
    {
      balance := balance + 1;
      t := Pop();
      sends := sends + [value];
    }

    /** The pointers of _remove_from_channel; the end pointer is lost if the last of several leaves. */
    method Unqueue(t: Tasklet, ghost k: nat)
      requires Linked() && Tail() && k < |items| && items[k] == t
      modifies `queue, `queueLast, `items, items`next, items`prev
      ensures Linked() && items == Cut(old(items), k) && t !in items && t.next == null && t.prev == null
      ensures Tail() <==> !(k == |old(items)| - 1 && k > 0)
      ensures Tail() || EndLost()
      ensures k == 0 && items != [] ==> items[0].prev == null
    {
      if t == queueLast {
        queueLast := null;
        if t == queue {
          queue := t.next;
        } else {
          t.prev.next := null;
        }
      } else if t == queue {
        queue := t.next;
        if t.next != null { t.next.prev := null; }
      } else {
        var before := Predecessor(t, k);
        before.next := t.next;
        t.next.prev := before;
      }
      t.next, t.prev := null, null;
      items := Cut(items, k);
    }

    /** The walk to what stands in front of `t`. */
    method Predecessor(t: Tasklet, ghost k: nat) returns (t1: Tasklet)
      requires Linked() && 0 < k < |items| && items[k] == t
      ensures t1 == items[k - 1]
    {
      t1 := queue;
      var t2 := t1.next;
      ghost var i: nat := 1;
      while t2 != null
        invariant 0 < i <= k && t1 == items[i - 1] && t2 == items[i]
        decreases k - i
      {
        if t2 == t { break; }
        t1 := t2;
        t2 := t2.next;
        i := i + 1;
      }
    }

    /** _remove_from_channel: a waiter gives up; its send or receive never was. */
    method Withdraw(t: Tasklet, ghost k: nat)
      requires Linked() && Tail() && Matched() && k < |items| && items[k] == t
      modifies this, items`next, items`prev
      ensures Linked() && Matched() && items == Cut(old(items), k) && t !in items && t.next == null && t.prev == null
      ensures Tail() <==> !(k == |old(items)| - 1 && k > 0)
      ensures Tail() || EndLost()
      ensures k == 0 && items != [] ==> items[0].prev == null
      ensures preference == old(preference) && answers == old(answers)
      ensures Met() == old(Met()) && forall i :: 0 <= i < Met() ==>
        sends[i] == old(sends)[i] && takes[i] == old(takes)[i]
      ensures old(balance) > 0 ==>
        balance == old(balance) - 1 && takes == old(takes) && sends == Cut(old(sends), |takes| + k)
      ensures old(balance) < 0 ==>
        balance == old(balance) + 1 && sends == old(sends) && takes == Cut(old(takes), |sends| + k)
    {
      hide Linked, Tail, EndLost, NoRepeats, Cut, MatchedBy;
      Unqueue(t, k);
      Uncount(old(items), k);
    }

    /** The numbers, when the one at place `k` of those who waited left. */
    method Uncount(ghost was: seq<Tasklet>, ghost k: nat)
      requires MatchedBy(was) && k < |was|
      modifies `balance, `sends, `takes
      ensures MatchedBy(Cut(was, k)) && answers == old(answers)
      ensures Met() == old(Met()) && forall i :: 0 <= i < Met() ==>
        sends[i] == old(sends)[i] && takes[i] == old(takes)[i]
      ensures old(balance) > 0 ==>
        balance == old(balance) - 1 && takes == old(takes) && sends == Cut(old(sends), |takes| + k)
      ensures old(balance) < 0 ==>
        balance == old(balance) + 1 && sends == old(sends) && takes == Cut(old(takes), |sends| + k)
    {
      hide Cut;
      if balance < 0 {
        CutReceivers(was, k);
        balance := balance + 1;
        takes := Cut(takes, |sends| + k);
      } else {
        CutSenders(was, k);
        balance := balance - 1;
        sends := Cut(sends, |takes| + k);
      }
    }

    lemma CutReceivers(s: seq<Tasklet>, k: nat)
      requires |takes| == |sends| + |s| && k < |s|
      requires forall i :: 0 <= i < |s| ==> s[i] == takes[|sends| + i]
      ensures forall i :: 0 <= i < |sends| ==> Cut(takes, |sends| + k)[i] == takes[i]
      ensures forall i :: 0 <= i < |s| - 1 ==> Cut(s, k)[i] == Cut(takes, |sends| + k)[|sends| + i]
    {
    }

    lemma CutSenders(s: seq<Tasklet>, k: nat)
      requires |sends| == |takes| + |s| && k < |s|
      requires forall i :: 0 <= i < |s| ==> s[i].data == Some(sends[|takes| + i])
      ensures forall i :: 0 <= i < |takes| ==> Cut(sends, |takes| + k)[i] == sends[i]
      ensures forall i :: 0 <= i < |s| - 1 ==> Cut(s, k)[i].data == Some(Cut(sends, |takes| + k)[|takes| + i])
    {
    }
  }

  class Scheduler {
    var current: Tasklet
    const main: Tasklet
    /** The runnables, from `current` on. */
    ghost var ring: seq<Tasklet>
    ghost var tasklets: set<Tasklet>
    ghost var channels: set<Channel>

    ghost predicate Circular()
      reads `ring, ring`next, ring`prev
    {
      Linked(ring)
    }

    ghost predicate RingOk()
      reads `current, `ring, ring`next, ring`prev
    {
      NoRepeats(ring) && ring != [] && current == ring[0] && Circular()
    }

    /** Every tasklet is on the ring, in the queue of the channel it is blocked on, or on neither. */
    ghost predicate Placed()
      reads `ring, `tasklets, `channels, tasklets`channel, channels`items
    {
      && main in tasklets
      && (forall t :: t in ring ==> t in tasklets && t.channel == null)
      && (forall c, t :: c in channels && t in c.items ==> t in tasklets && t.channel == c)
      && (forall t :: t in tasklets && t.channel != null ==> t.channel in channels && t in t.channel.items)
    }

    ghost predicate Off(t: Tasklet)
      reads `ring, t`channel
    {
      t.channel == null && t !in ring
    }

    /** A tasklet on neither has no links, except perhaps a stale `prev` of `x`. */
    ghost predicate Idle(x: Tasklet?)
      reads `ring, `tasklets, tasklets`channel, tasklets`next, tasklets`prev
    {
      forall t :: t in tasklets && Off(t) ==> t.next == null && (t != x ==> t.prev == null)
    }

    /** The channels are well formed, except perhaps for the end pointer of `b`. */
    ghost predicate ChannelsOk(b: Channel?)
      requires Placed()
      reads `ring, `tasklets, `channels, tasklets`channel, tasklets`next, tasklets`prev, tasklets`data
      reads channels`queue, channels`queueLast, channels`items, channels`balance
      reads channels`sends, channels`takes, channels`answers
    {
      forall c :: c in channels ==> c.Linked() && c.Matched() && (c != b ==> c.Tail())
    }

    /** What a receiver was handed is the value of the send with the number of its receive. */
    ghost predicate HasTicket(t: Tasklet)
      reads `channels, channels`sends, channels`takes, t`source, t`turn, t`data, t`channel
    {
      && t.source != null && t.source in channels && t.channel == null
      && t.turn < t.source.Met() && t.source.takes[t.turn] == t && t.data == Some(t.source.sends[t.turn])
    }

    ghost predicate Ticketed()
      reads `tasklets, `channels, channels`sends, channels`takes
      reads tasklets`source, tasklets`turn, tasklets`data, tasklets`channel
    {
      forall t :: t in tasklets && t.source != null ==> HasTicket(t)
    }

    ghost predicate Inv(x: Tasklet?, b: Channel?)
      reads this, tasklets, channels
      reads ring`next, ring`prev
    {
      RingOk() && Placed() && Idle(x) && ChannelsOk(b) && Ticketed()
    }

    /** _get_new_main */
    constructor ()
      ensures Inv(null, null) && ring == [main] && fresh(main) && channels == {} && tasklets == {main} && main.alive
        && main.data == None
    {
      var m := new Tasklet();
      main, current, ring, tasklets, channels := m, m, [m], {m}, {};
      new;
      hide Inv;
      m.alive := true;
      m.next, m.prev := m, m;
      MainStarts();
    }

    lemma MainStarts()
      requires ring == [main] && current == main && main.next == main && main.prev == main
      requires tasklets == {main} && channels == {} && main.channel == null && main.source == null
      ensures Inv(null, null)
    {
    }

    // -------------------------------------------------------------- the ring

    /** The neighbours of place `k` are linked to each other; all other links are those of a ring. */
    ghost predicate Bridged(s: seq<Tasklet>, k: nat)
      requires 0 < k < |s|
      reads s`next, s`prev
    {
      var j := if k + 1 == |s| then 0 else k + 1;
      && (forall i {:trigger s[i].next} :: 0 <= i < |s| && i != k ==>
            s[i].next == s[if i == k - 1 then j else if i + 1 == |s| then 0 else i + 1])
      && (forall i {:trigger s[i].prev} :: 0 <= i < |s| && i != k ==>
            s[i].prev == s[if i == j then k - 1 else if i == 0 then |s| - 1 else i - 1])
    }

    /** With the links of its neighbours joined, what is left without place `k` is a ring. */
    lemma ClosedAgain(s: seq<Tasklet>, k: nat)
      requires NoRepeats(s) && 0 < k < |s|
      requires Bridged(s, k)
      ensures NoRepeats(Cut(s, k)) && Linked(Cut(s, k))
    {
      hide Cut;
    }

    /** The links when `t`, at place `k`, leaves the ring: its neighbours are linked, nothing else changes. */
    method Detach(t: Tasklet, ghost k: nat)
      requires RingOk() && 0 < k < |ring| && ring[k] == t
      modifies ring`next, ring`prev
      ensures t.next == null && t.prev == null
      ensures ring[k - 1].next == old(t.next) && old(t.next) != null && old(t.next).prev == ring[k - 1]
      ensures forall q :: q in ring && q != t && q != ring[k - 1] ==> q.next == old(q.next)
      ensures forall q :: q in ring && q != t && q != old(t.next) ==> q.prev == old(q.prev)
    {
      t.next.prev := t.prev;
      t.prev.next := t.next;
      t.next, t.prev := null, null;
    }

    twostate lemma NowBridged(k: nat)
      requires old(RingOk()) && 0 < k < |ring| && ring == old(ring)
      requires var t := ring[k];
        && ring[k - 1].next == old(t.next) && old(t.next) != null && old(t.next).prev == ring[k - 1]
        && (forall q :: q in ring && q != t && q != ring[k - 1] ==> q.next == old(q.next))
        && (forall q :: q in ring && q != t && q != old(t.next) ==> q.prev == old(q.prev))
      ensures Bridged(ring, k)
    {
      var n, t := |ring|, ring[k];
      var j := if k + 1 == n then 0 else k + 1;
      assert forall i :: 0 <= i < n && i != k ==> ring[i] != t;
      forall i | 0 <= i < n && i != k
        ensures ring[i].next == ring[if i == k - 1 then j else if i + 1 == n then 0 else i + 1]
      {
        assert i != k - 1 ==> ring[i] != ring[k - 1];
      }
      forall i | 0 <= i < n && i != k
        ensures ring[i].prev == ring[if i == j then k - 1 else if i == 0 then n - 1 else i - 1]
      {
        assert i != j ==> ring[i] != ring[j];
      }
    }

    /** Takes `t`, which is not current, out of the ring. */
    method Unlink(t: Tasklet, ghost k: nat)
      requires RingOk() && 0 < k < |ring| && ring[k] == t
      modifies `ring, ring`next, ring`prev
      ensures RingOk() && ring == Cut(old(ring), k) && t.next == null && t.prev == null
    {
      hide Cut, Bridged, Linked, NoRepeats;
      Detach(t, k);
      NowBridged(k);
      ClosedAgain(ring, k);
      ring := Cut(ring, k);
    }

    method LinkBefore(t: Tasklet)
      requires RingOk() && t !in ring
      modifies `ring, ring`next, ring`prev, t`next, t`prev
      ensures RingOk() && ring == old(ring) + [t]
    {
      t.next := current;
      t.prev := current.prev;
      current.prev.next := t;
      current.prev := t;
      ring := ring + [t];
    }

    method LinkAfter(t: Tasklet)
      requires RingOk() && t !in ring
      modifies `ring, ring`next, ring`prev, t`next, t`prev
      ensures RingOk() && ring == [old(ring)[0], t] + old(ring)[1..]
    {
      t.prev := current;
      t.next := current.next;
      current.next.prev := t;
      current.next := t;
      ring := [ring[0], t] + ring[1..];
    }

    /** current = t, for `t` at place `k` of the ring. */
    method SetCurrent(t: Tasklet, ghost k: nat)
      requires RingOk() && k < |ring| && ring[k] == t
      modifies `current, `ring
      ensures RingOk() && ring == Turned(old(ring), k)
    {
      hide Turned, NoRepeats, Linked;
      TurnedLinked(ring, k);
      current := t;
      ring := Turned(ring, k);
    }

    lemma TurnedLinked(s: seq<Tasklet>, k: nat)
      requires NoRepeats(s) && Linked(s) && k < |s|
      ensures NoRepeats(Turned(s, k)) && Linked(Turned(s, k))
    {
      hide Turned;
      ghost var r := Turned(s, k);
      forall i | 0 <= i < |r|
        ensures r[i].next == r[if i + 1 == |r| then 0 else i + 1] && r[i].prev == r[if i == 0 then |r| - 1 else i - 1]
      {
        assert r[i] == s[if i + k < |s| then i + k else i + k - |s|];
      }
    }

    // -------------------------------------------------------------- the ring, with all that holds

    lemma RingApart()
      requires Placed()
      ensures forall c, t :: c in channels && t in c.items ==> t !in ring
    {
    }

    lemma OffApart(t: Tasklet)
      requires Placed() && Off(t)
      ensures forall c, q :: c in channels && q in c.items ==> q !in ring && q != t
    {
    }

    /** Takes `t`, which is not current, off the ring; it is on neither then. */
    method TakeOff(t: Tasklet, ghost k: nat, ghost b: Channel?)
      requires Inv(null, b) && 0 < k < |ring| && ring[k] == t
      modifies `ring, ring`next, ring`prev
      ensures Inv(null, b) && ring == Cut(old(ring), k) && t !in ring
    {
      hide Circular, Channel.Linked, Channel.Matched, Channel.Tail, NoRepeats;
      RingApart();
      CutMembers(ring, k);
      Unlink(t, k);
      assert t !in ring;
    }

    // What it leaves alone when `t` joins the ring.

    twostate predicate OnlyJoined(t: Tasklet)
      reads this, tasklets, channels
    {
      && tasklets == old(tasklets) && channels == old(channels) && t in tasklets && old(Off(t))
      && t in ring && (forall x :: x in ring ==> x in old(ring) || x == t) && (forall x :: x in old(ring) ==> x in ring)
      && (forall c :: c in channels ==> unchanged(c))
      && (forall q :: q in tasklets ==> unchanged(q`data, q`channel, q`source, q`turn))
      && (forall q :: q in tasklets && q != t && q !in old(ring) ==> unchanged(q))
    }

    twostate lemma JoinedPlaced(t: Tasklet)
      requires old(Placed()) && OnlyJoined(t)
      ensures Placed()
    {
    }

    twostate lemma JoinedChannels(new t: Tasklet, b: Channel?)
      requires t in old(tasklets)
      requires old(Placed()) && old(ChannelsOk(b)) && OnlyJoined(t) && Placed()
      ensures ChannelsOk(b)
    {
      forall c | c in channels ensures c.Linked() && c.Matched() && (c != b ==> c.Tail()) {
        assert old(c.Linked() && c.Matched() && (c != b ==> c.Tail())) && unchanged(c);
        forall i | 0 <= i < |c.items|
          ensures c.items[i].next == old(c.items[i].next) && c.items[i].prev == old(c.items[i].prev)
          ensures c.items[i].data == old(c.items[i].data)
        {
          var q := c.items[i];
          assert q in old(c.items) && old(q.channel) == c;
        }
      }
    }

    twostate lemma JoinedRest(t: Tasklet)
      requires old(Placed()) && old(Idle(t)) && old(Ticketed()) && OnlyJoined(t)
      ensures Idle(null) && Ticketed()
    {
    }

    /** Puts `t`, which is on neither, on the ring, at its end. */
    method PutBefore(t: Tasklet, ghost b: Channel?)
      requires Inv(t, b) && t in tasklets && Off(t)
      modifies `ring, ring`next, ring`prev, t`next, t`prev
      ensures Inv(null, b) && ring == old(ring) + [t]
    {
      hide Circular, Channel.Linked, Channel.Matched, Channel.Tail, NoRepeats;
      LinkBefore(t);
      JoinedPlaced(t);
      JoinedChannels(t, b);
      JoinedRest(t);
    }

    method PutAfter(t: Tasklet, ghost b: Channel?)
      requires Inv(t, b) && t in tasklets && Off(t)
      modifies `ring, ring`next, ring`prev, t`next, t`prev
      ensures Inv(null, b) && ring == [old(ring)[0], t] + old(ring)[1..]
    {
      hide Circular, Channel.Linked, Channel.Matched, Channel.Tail, NoRepeats;
      BehindMembers(ring, t);
      LinkAfter(t);
      JoinedPlaced(t);
      JoinedChannels(t, b);
      JoinedRest(t);
    }

    lemma BehindMembers(s: seq<Tasklet>, t: Tasklet)
      requires s != []
      ensures forall x :: x in [s[0], t] + s[1..] <==> x in s || x == t
    {
      assert s == [s[0]] + s[1..];
    }

    method Turn(t: Tasklet, ghost k: nat, ghost x: Tasklet?, ghost b: Channel?)
      requires Inv(x, b) && k < |ring| && ring[k] == t
      modifies `current, `ring
      ensures Inv(x, b) && ring == Turned(old(ring), k)
    {
      hide Circular, Channel.Linked, Channel.Matched, Channel.Tail, NoRepeats;
      TurnedMembers(ring, k);
      SetCurrent(t, k);
    }

    // -------------------------------------------------------------- channels, with all that holds

    /** The channel that loses its end pointer if `t` is taken off its channel: that of the last of several. */
    ghost function Harm(t: Tasklet): (c: Channel?)
      reads t`channel
      reads if t.channel != null then {t.channel} else {}
    {
      if t.channel != null && |t.channel.items| >= 2 && t == t.channel.items[|t.channel.items| - 1] then t.channel
        else null
    }

    // What one step of a tasklet `t` onto, or off, a channel `c` leaves alone.

    twostate predicate OnlyMoved(c: Channel, t: Tasklet)
      reads this, tasklets, channels
    {
      && ring == old(ring) && current == old(current) && tasklets == old(tasklets) && channels == old(channels)
      && t in tasklets && c in channels && old(t !in ring) && (old(t.channel) == null || old(t.channel) == c)
      && (t.channel == null || t.channel == c) && (t in c.items <==> t.channel == c)
      && (forall q :: q in c.items ==> q in old(c.items) || q == t)
      && (forall q :: q in old(c.items) && q != t ==> q in c.items)
      && (forall o :: o in channels && o != c ==> unchanged(o))
      && (forall q :: q in tasklets && q != t ==> unchanged(q`data, q`channel, q`source, q`turn))
      && (forall q :: q in tasklets && q != t && q !in old(c.items) ==> unchanged(q))
    }

    twostate lemma StillPlaced(c: Channel, new t: Tasklet)
      requires t in old(tasklets)
      requires old(Placed()) && OnlyMoved(c, t)
      ensures Placed()
    {
    }

    twostate lemma StillCircular(c: Channel, new t: Tasklet)
      requires t in old(tasklets)
      requires old(Placed()) && old(RingOk()) && OnlyMoved(c, t)
      ensures RingOk()
    {
      forall i | 0 <= i < |ring| ensures unchanged(ring[i]) {
        assert ring[i] in ring;
      }
    }

    twostate lemma OthersOk(c: Channel, new t: Tasklet, new b: Channel?)
      requires t in old(tasklets)
      requires old(Placed()) && old(ChannelsOk(null)) && OnlyMoved(c, t) && Placed()
      requires c.Linked() && c.Matched() && (c != b ==> c.Tail())
      ensures ChannelsOk(b)
    {
      forall o | o in channels && o != c ensures o.Linked() && o.Matched() && o.Tail() {
        assert old(o.Linked() && o.Matched() && o.Tail()) && unchanged(o);
        forall i | 0 <= i < |o.items|
          ensures o.items[i].next == old(o.items[i].next) && o.items[i].prev == old(o.items[i].prev)
          ensures o.items[i].data == old(o.items[i].data)
        {
          var q := o.items[i];
          assert q in old(o.items) && old(q.channel) == o;
        }
      }
    }

    twostate lemma StillIdle(c: Channel, new t: Tasklet, new x: Tasklet?)
      requires t in old(tasklets)
      requires old(Placed()) && old(Idle(null)) && OnlyMoved(c, t)
      requires t.channel == null ==> t.next == null && (t != x ==> t.prev == null)
      ensures Idle(x)
    {
    }

    twostate lemma StillTicketed(c: Channel, new t: Tasklet)
      requires t in old(tasklets)
      requires old(Ticketed()) && OnlyMoved(c, t) && old(c.Met()) <= c.Met()
      requires forall i :: 0 <= i < old(c.Met()) ==> c.sends[i] == old(c.sends)[i] && c.takes[i] == old(c.takes)[i]
      requires t.source == null || HasTicket(t)
      ensures Ticketed()
    {
    }

    twostate lemma StillInv(c: Channel, new t: Tasklet, new x: Tasklet?, new b: Channel?)
      requires t in old(tasklets)
      requires old(Inv(null, null)) && OnlyMoved(c, t) && old(c.Met()) <= c.Met()
      requires c.Linked() && c.Matched() && (c != b ==> c.Tail())
      requires t.channel == null ==> t.next == null && (t != x ==> t.prev == null)
      requires forall i :: 0 <= i < old(c.Met()) ==> c.sends[i] == old(c.sends)[i] && c.takes[i] == old(c.takes)[i]
      requires t.source == null || HasTicket(t)
      ensures Inv(x, b)
    {
      hide OnlyMoved, Circular, NoRepeats, Placed, Idle, ChannelsOk, Ticketed, Channel.Linked, Channel.Matched,
           Channel.Tail;
      StillPlaced(c, t);
      StillCircular(c, t);
      OthersOk(c, t, b);
      StillIdle(c, t, x);
      StillTicketed(c, t);
    }

    ghost function Lines(): map<Channel, Line>
      reads `channels, channels
    {
      map c | c in channels :: c.Now()
    }

    /** _remove_from_channel: the others stay in order, and the balance moves by one towards zero. */
    method RemoveFromChannel(t: Tasklet)
      requires Inv(null, null) && t in tasklets && t.channel != null
      modifies t.channel, t.channel.items`next, t.channel.items`prev, t`channel
      ensures Inv(null, old(Harm(t))) && Off(t)
      ensures old(Harm(t)) != null ==> old(t.channel).EndLost()
      ensures old(t.channel).items == Minus(old(t.channel.items), t)
      ensures old(t.channel.balance) < 0 ==> old(t.channel).balance == old(t.channel.balance) + 1
      ensures old(t.channel.balance) > 0 ==> old(t.channel).balance == old(t.channel.balance) - 1
      ensures Nearer() && OffLine(old(Lines()), old(t.channel), t, Lines())
    {
      hide Inv, Minus, Channel.EndLost, Harm;
      ghost var before := Lines();
      LeaveChannel(t, t.channel);
      assert forall o :: o in channels ==> Lines()[o] == o.Now();
    }

    /** No channel was turned around: each has its preference, and its balance or one nearer to zero. */
    twostate predicate Nearer()
      reads this, channels
    {
      && channels == old(channels)
      && forall c :: c in old(channels) ==> c.preference == old(c.preference) && OneNearer(old(c.balance), c.balance)
    }

    predicate OneNearer(before: int, after: int) {
      after == before || (before < 0 && after == before + 1) || (before > 0 && after == before - 1)
    }

    method LeaveChannel(t: Tasklet, c: Channel)
      requires Inv(null, null) && t in tasklets && t.channel == c
      modifies c, c.items`next, c.items`prev, t`channel
      ensures Inv(null, old(Harm(t))) && Off(t)
      ensures old(Harm(t)) != null ==> c.EndLost()
      ensures c.items == Minus(old(c.items), t)
      ensures old(c.balance) < 0 ==> c.balance == old(c.balance) + 1
      ensures old(c.balance) > 0 ==> c.balance == old(c.balance) - 1
      ensures old(c.balance) != 0 && OffLine(old(Lines()), c, t, Lines())
    {
      hide Circular, NoRepeats, Channel.Linked, Channel.Matched, Channel.Tail, OffLine;
      RingApart();
      ghost var before := Lines();
      ghost var k := PlaceOf(c.items, t);
      ghost var b := Harm(t);
      QueueFacts(c);
      MinusAt(c.items, t, k);
      c.Withdraw(t, k);
      t.channel := null;
      StillInv(c, t, null, b);
      LineLost(before, c, t);
    }

    lemma LineLost(before: map<Channel, Line>, c: Channel, t: Tasklet)
      requires before.Keys == channels && c in channels && forall o :: o in channels && o != c ==> before[o] == o.Now()
      requires c.items == Minus(before[c].items, t) && c.preference == before[c].preference
        && c.answers == before[c].answers && c.balance == before[c].balance + if before[c].balance < 0 then 1 else -1
      ensures OffLine(before, c, t, Lines())
    {
    }

    lemma QueueFacts(c: Channel)
      requires Placed() && ChannelsOk(null) && c in channels
      ensures c.Linked() && c.Tail() && c.Matched() && |c.items| == if c.balance >= 0 then c.balance else -c.balance
      ensures forall t :: t in c.items ==> t in tasklets && t !in ring
      ensures c.balance > 0 ==> c.items[0].data.Some?
    {
    }

    /** The oldest sender on `c` is taken off the channel, with what it sends. */
    method WakeSender(c: Channel) returns (sender: Tasklet, value: Value)
      requires Inv(null, null) && c in channels && c.balance > 0
      modifies c, c.items`next, c.items`prev, c.items`channel, c.items`data
      ensures Inv(sender, null) && Off(sender) && sender in tasklets
      ensures old(c.items) != [] && sender == old(c.items)[0] && c.items == old(c.items)[1..]
      ensures sender.prev == if |old(c.items)| >= 2 then null else old(c.items[0].prev)
      ensures c.items != [] ==> c.items[0].prev == sender
      ensures c.balance == old(c.balance) - 1 && c.preference == old(c.preference)
      ensures c.sends == old(c.sends) && c.takes == old(c.takes) + [current]
      ensures |old(c.takes)| < |c.sends| && value == c.sends[|old(c.takes)|]
      ensures c.answers == old(c.answers)[|old(c.takes)| := value]
    {
      hide Circular, NoRepeats, Channel.Linked, Channel.Matched, Channel.Tail;
      QueueFacts(c);
      RingApart();
      sender := c.PopSender(current);
      value := sender.data.value;
      sender.channel, sender.data := null, None;
      StillInv(c, sender, sender, null);
    }

    /** The oldest receiver on `c` is taken off the channel, with `value` in its hands. */
    method WakeReceiver(c: Channel, value: Value) returns (receiver: Tasklet)
      requires Inv(null, null) && c in channels && c.balance < 0
      modifies c, c.items`next, c.items`prev, c.items`channel, c.items`data, c.items`source, c.items`turn
      ensures Inv(receiver, null) && Off(receiver) && receiver in tasklets
      ensures old(c.items) != [] && receiver == old(c.items)[0] && c.items == old(c.items)[1..]
      ensures receiver.prev == if |old(c.items)| >= 2 then null else old(c.items[0].prev)
      ensures c.items != [] ==> c.items[0].prev == receiver
      ensures c.balance == old(c.balance) + 1 && c.preference == old(c.preference)
      ensures c.sends == old(c.sends) + [value] && c.takes == old(c.takes) && c.answers == old(c.answers)
      ensures receiver.source == c && receiver.turn == |old(c.sends)| && receiver.data == Some(value)
    {
      hide Circular, NoRepeats, Channel.Linked, Channel.Matched, Channel.Tail;
      QueueFacts(c);
      RingApart();
      receiver := c.PopReceiver(value);
      receiver.data, receiver.channel := Some(value), null;
      receiver.source, receiver.turn := c, |c.sends| - 1;
      StillInv(c, receiver, receiver, null);
    }

    /** What is true of the tasklet that is about to wait on `c`. */
    ghost predicate AboutToWait(t: Tasklet)
      reads `ring, `tasklets, t
    {
      t in tasklets && Off(t) && t.next == null && t.prev == null && t.source == null
    }

    method WaitToSend(c: Channel, t: Tasklet, value: Value)
      requires Inv(null, null) && c in channels && c.balance >= 0 && AboutToWait(t)
      modifies c, c.items`next, t`next, t`prev, t`channel, t`data
      ensures Inv(null, null) && c.items == old(c.items) + [t] && c.balance == old(c.balance) + 1 && t.channel == c
      ensures c.sends == old(c.sends) + [value] && c.takes == old(c.takes)
      ensures c.preference == old(c.preference) && c.answers == old(c.answers)
    {
      hide Circular, NoRepeats, Channel.Linked, Channel.Matched, Channel.Tail;
      QueueFacts(c);
      RingApart();
      SetData(t, Some(value));
      c.AppendSender(t);
      t.channel := c;
      StillInv(c, t, null, null);
    }

    method SetData(t: Tasklet, data: Option<Value>)
      requires Inv(null, null) && t.channel == null && t.source == null
      modifies t`data
      ensures Inv(null, null) && t.data == data
    {
      t.data := data;
    }

    method WaitToReceive(c: Channel, t: Tasklet)
      requires Inv(null, null) && c in channels && c.balance <= 0 && AboutToWait(t)
      modifies c, c.items`next, t`next, t`prev, t`channel
      ensures Inv(null, null) && c.items == old(c.items) + [t] && c.balance == old(c.balance) - 1 && t.channel == c
      ensures c.takes == old(c.takes) + [t] && c.sends == old(c.sends)
      ensures c.preference == old(c.preference) && c.answers == old(c.answers)
    {
      hide Circular, NoRepeats, Channel.Linked, Channel.Matched, Channel.Tail;
      QueueFacts(c);
      RingApart();
      c.AppendReceiver(t);
      t.channel := c;
      StillInv(c, t, null, null);
    }

    // -------------------------------------------------------------- leaving and joining the ring

    /** What is left of the ring when current leaves it: main at least. */
    ghost function Rest(): (r: seq<Tasklet>)
      requires ring != []
      reads `ring
      ensures r != []
    {
      if |ring| == 1 then [main] else ring[1..]
    }

    /** Makes main, which is on neither, the only runnable, instead of current. */
    method MainBack(ghost b: Channel?)
      requires Inv(null, b) && |ring| == 1 && current != main && main.channel == null
      modifies `current, `ring, current`next, current`prev, main`next, main`prev
      ensures Inv(null, b) && ring == [main]
    {
      hide Circular, Channel.Linked, Channel.Matched, Channel.Tail, NoRepeats;
      RingFacts();
      OffApart(main);
      MainAlone();
    }

    /** The links of that. */
    method MainAlone()
      requires RingOk() && |ring| == 1 && current != main
      modifies `current, `ring, current`next, current`prev, main`next, main`prev
      ensures RingOk() && ring == [main] && old(current).next == null && old(current).prev == null
    {
      var t := current;
      current, ring := main, [main];
      main.next, main.prev := main, main;
      t.next, t.prev := null, null;
    }

    /** _remove(current), unless main would have to leave its channel first. */
    method LeaveRing(ghost b: Channel?)
      requires Inv(null, b) && (|ring| == 1 && current != main ==> main.channel == null)
      modifies `current, `ring, ring`next, ring`prev, main`next, main`prev
      ensures Inv(null, b) && ring == old(Rest())
      ensures |old(ring)| > 1 || old(current) != main ==> old(current) !in ring
    {
      hide Circular, Channel.Linked, Channel.Matched, Channel.Tail, Ticketed, Idle, Placed, ChannelsOk;
      RingFacts();
      var t := current;
      if t.next == t {
        if t != main { MainBack(b); }
      } else {
        ghost var last := |ring| - 1;
        Turn(t.next, 1, null, b);
        TakeOff(t, last, b);
      }
    }

    lemma RingFacts()
      requires RingOk()
      ensures current == ring[0] && current in ring && current.next != null && current.prev == ring[|ring| - 1]
      ensures current.next == ring[if |ring| == 1 then 0 else 1]
      ensures current.next == current <==> |ring| == 1
    {
    }

    /** Main comes off its channel, or nothing happens on the channels. */
    ghost predicate Kept(off: bool, before: map<Channel, Line>, c: Channel?, after: map<Channel, Line>) {
      if off then OffLine(before, c, main, after) else after == before
    }

    /** _remove(current): if main has to come back, it leaves its channel. */
    method RemoveCurrent()
      requires Inv(null, null)
      modifies `current, `ring, ring`next, ring`prev, tasklets`next, tasklets`prev, main`channel, channels
      ensures ring == old(Rest())
        && Inv(null, if |old(ring)| == 1 && old(current) != main then old(Harm(main)) else null)
      ensures |old(ring)| == 1 && old(current) != main && old(Harm(main)) != null ==> old(main.channel).EndLost()
      ensures |old(ring)| > 1 || old(current) != main ==> old(current) !in ring
      ensures |old(ring)| > 1 || old(main.channel) == null ==> unchanged(channels)
      ensures Nearer() && Kept(old(|ring| == 1 && current != main), old(Lines()), old(main.channel), Lines())
    {
      hide Circular, Channel.Linked, Channel.Matched, Channel.Tail, Ticketed, Idle, ChannelsOk, OffLine, Lines;
      RingFacts();
      NobodyOff(Lines(), main);
      ghost var b: Channel? := null;
      if current.next == current && current != main && main.channel != null {
        b := Harm(main);
        RemoveFromChannel(main);
      }
      LeaveRing(b);
    }

    /** Moves `t`, which is on the ring but not current, right behind current. */
    method MoveAfter(t: Tasklet, ghost b: Channel?)
      requires Inv(null, b) && t in ring && t != current
      modifies `ring, ring`next, ring`prev
      ensures Inv(null, b) && ring == [old(ring)[0], t] + Minus(old(ring), t)[1..] && current == old(current)
    {
      hide Circular, Channel.Linked, Channel.Matched, Channel.Tail, Ticketed, Idle, ChannelsOk;
      ghost var k := PlaceOf(ring, t);
      MinusAt(ring, t, k);
      TakeOff(t, k, b);
      WeakenIdle(t, b);
      PutAfter(t, b);
    }

    lemma WeakenIdle(t: Tasklet, b: Channel?)
      requires Inv(null, b)
      ensures Inv(t, b)
    {
    }

    lemma SecondFacts(t: Tasklet)
      requires RingOk() && t in ring && t != current
      ensures t.next != null && |ring| >= 2 && (t.prev == current ==> ring == [ring[0], t] + Minus(ring, t)[1..])
    {
      var k := PlaceOf(ring, t);
      MinusAt(ring, t, k);
      assert ring[k].prev == ring[k - 1];
    }

    /**
     * _insert_after_current: inserts or moves `t`.  Nothing happens if its `prev` is current, which is right
     * for a tasklet on the ring, but not for one that has the stale `prev` of a queue it was popped from.
     */
    method InsertAfterCurrent(t: Tasklet, ghost b: Channel?)
      requires Inv(t, b) && t in tasklets && t.channel == null && t != current
      modifies `ring, ring`next, ring`prev, t`next, t`prev
      ensures current == old(current)
      ensures old(t in ring || t.prev != current) ==>
                Inv(null, b) && ring == [old(ring)[0], t] + Minus(old(ring), t)[1..]
      ensures old(t !in ring && t.prev == current) ==> unchanged(`ring, t) && Inv(t, b)
    {
      hide Circular, Channel.Linked, Channel.Matched, Channel.Tail, Ticketed, ChannelsOk;
      if t in ring { SecondFacts(t); StrengthenIdle(t, b); }
      if t.prev != current {
        if t.next != null {
          MoveAfter(t, b);
        } else {
          PutAfter(t, b);
        }
      }
    }

    lemma StrengthenIdle(t: Tasklet, b: Channel?)
      requires Inv(t, b) && t in ring
      ensures Inv(null, b)
    {
    }

    // -------------------------------------------------------------- what a tasklet can do to the ring

    /** schedule(): current goes behind all others. */
    method Schedule()
      requires Inv(null, null)
      modifies `current, `ring
      ensures Inv(null, null) && ring == old(ring)[1..] + [old(ring)[0]]
    {
      hide Circular, Channel.Linked, Channel.Matched, Channel.Tail, Ticketed, Idle, Placed, ChannelsOk;
      RingFacts();
      if current.next != current {
        Turn(current.next, 1, null, null);
      }
    }

    /** schedule_remove() */
    method ScheduleRemove()
      requires Inv(null, null)
      modifies `current, `ring, ring`next, ring`prev, tasklets`next, tasklets`prev, main`channel, channels
      ensures ring == old(Rest())
        && Inv(null, if |old(ring)| == 1 && old(current) != main then old(Harm(main)) else null)
      ensures |old(ring)| == 1 && old(current) != main && old(Harm(main)) != null ==> old(main.channel).EndLost()
      ensures Kept(old(|ring| == 1 && current != main), old(Lines()), old(main.channel), Lines())
    {
      hide *;
      RemoveCurrent();
    }

    /** tasklet.remove(): refused for current and for a blocked tasklet. */
    method Remove(t: Tasklet) returns (r: Refusal)
      requires Inv(null, null) && t in tasklets
      modifies `ring, ring`next, ring`prev
      ensures r == Refused <==> t == current || t.channel != null
      ensures Inv(null, null) && ring == if r == Refused then old(ring) else Minus(old(ring), t)
      ensures current == old(current)
    {
      hide Circular, Channel.Linked, Channel.Matched, Channel.Tail, Ticketed, ChannelsOk;
      if t == current || t.channel != null { return Refused; }
      if t in ring { SecondFacts(t); }
      if t.next != null {
        ghost var k := PlaceOf(ring, t);
        MinusAt(ring, t, k);
        TakeOff(t, k, null);
      }
      return Accepted;
    }

    /** tasklet.insert(): refused for a dead and for a blocked tasklet; nothing happens to a runnable one. */
    method Insert(t: Tasklet) returns (r: Refusal)
      requires Inv(null, null) && t in tasklets
      modifies `ring, ring`next, ring`prev, t`next, t`prev
      ensures r == Refused <==> !t.alive || t.channel != null
      ensures Inv(null, null) && ring == if r == Refused || t in old(ring) then old(ring) else old(ring) + [t]
      ensures current == old(current)
    {
      hide Circular, Channel.Linked, Channel.Matched, Channel.Tail, Ticketed, ChannelsOk;
      if !t.alive || t.channel != null { return Refused; }
      InsertIdle(t, null);
      return Accepted;
    }

    /** Insertion before current, unless `t` is on the ring already. */
    method InsertIdle(t: Tasklet, ghost b: Channel?)
      requires Inv(null, b) && t in tasklets && t.channel == null
      modifies `ring, ring`next, ring`prev, t`next, t`prev
      ensures Inv(null, b) && ring == (if t in old(ring) then old(ring) else old(ring) + [t]) && current == old(current)
    {
      hide Circular, Channel.Linked, Channel.Matched, Channel.Tail, Ticketed, ChannelsOk;
      if t in ring { OnRing(t); }
      if t.next == null {
        WeakenIdle(t, b);
        PutBefore(t, b);
      }
    }

    lemma OnRing(t: Tasklet)
      requires RingOk() && t in ring
      ensures t.next != null
    {
    }

    /** The ring with `t` in front, in the old cyclic order; in front of current if it was not there. */
    ghost function Fronted(t: Tasklet): seq<Tasklet>
      reads `ring
    {
      FrontedIn(ring, t)
    }

    /** Makes `t` current, putting it on the ring if need be. */
    method BringToFront(t: Tasklet, ghost b: Channel?)
      requires Inv(null, b) && t in tasklets && t.channel == null
      modifies `current, `ring, ring`next, ring`prev, t`next, t`prev
      ensures Inv(null, b) && ring == old(Fronted(t))
    {
      hide Circular, Channel.Linked, Channel.Matched, Channel.Tail, Ticketed, Idle, Placed, ChannelsOk;
      ghost var was := ring;
      InsertIdle(t, b);
      ghost var k := PlaceOf(ring, t);
      Turn(t, k, null, b);
      assert t !in was ==> ring == [t] + was;
    }

    /** tasklet.run() */
    method Run(t: Tasklet) returns (r: Refusal)
      requires Inv(null, null) && t in tasklets
      modifies `current, `ring, ring`next, ring`prev, t`next, t`prev
      ensures r == Refused <==> !t.alive || t.channel != null
      ensures Inv(null, null) && ring == if r == Refused then old(ring) else old(Fronted(t))
    {
      hide *;
      if t.channel != null || !t.alive { return Refused; }
      BringToFront(t, null);
      return Accepted;
    }

    /** _throw, as kill and raise_exception use it: the target is taken off its channel, and is current then. */
    method Throw(t: Tasklet) returns (r: Thrown)
      requires Inv(null, null) && t in tasklets
      modifies `current, `ring, ring`next, ring`prev, tasklets`next, tasklets`prev, t`channel, channels
      ensures r == if !t.alive then Ignored else if t == old(current) then Raised else Switched
      ensures r != Switched ==> Inv(null, null) && ring == old(ring) && unchanged(channels)
      ensures r == Switched ==> Inv(null, old(Harm(t))) && ring == old(Fronted(t))
      ensures r == Switched && old(Harm(t)) != null ==> old(t.channel).EndLost()
      ensures r == Switched && old(t.channel) != null ==>
        && old(t.channel).items == Minus(old(t.channel.items), t)
        && old(t.channel).balance == old(t.channel.balance) + (if old(t.channel.balance) < 0 then 1 else -1)
      ensures if r == Switched then OffLine(old(Lines()), old(t.channel), t, Lines()) else Lines() == old(Lines())
    {
      hide Circular, Channel.Linked, Channel.Matched, Channel.Tail, Ticketed, Idle, ChannelsOk, OffLine, Lines;
      NobodyOff(Lines(), t);
      if !t.alive { return Ignored; }
      if t == current { return Raised; }
      ghost var b := Harm(t);
      if t.channel != null {
        QueueFacts(t.channel);
        RemoveFromChannel(t);
      }
      BringToFront(t, b);
      return Switched;
    }

    /** A new tasklet, started: it is runnable, behind all others. */
    method Spawn() returns (t: Tasklet)
      requires Inv(null, null)
      modifies `ring, `tasklets, ring`next, ring`prev
      ensures Inv(null, null) && fresh(t) && ring == old(ring) + [t] && tasklets == old(tasklets) + {t}
      ensures t.alive && t.data == None && t.source == null
    {
      hide RingOk, Placed, Idle, ChannelsOk, Ticketed;
      t := NewTasklet();
      t.alive := true;
      WeakenIdle(t, null);
      PutBefore(t, null);
    }

    /** A tasklet that is on neither ring nor queue. */
    method NewTasklet() returns (t: Tasklet)
      requires Inv(null, null)
      modifies `tasklets
      ensures Inv(null, null) && fresh(t) && tasklets == old(tasklets) + {t} && Off(t) && t.data == None
        && t.source == null
    {
      hide Circular, Channel.Linked, Channel.Matched, Channel.Tail, NoRepeats;
      t := new Tasklet();
      tasklets := tasklets + {t};
    }

    method NewChannel(preference: int) returns (c: Channel)
      requires Inv(null, null)
      modifies `channels
      ensures Inv(null, null) && fresh(c) && channels == old(channels) + {c} && c.preference == preference
      ensures c.items == [] && c.sends == [] && c.takes == [] && c.balance == 0 && c.answers == map[]
    {
      hide Circular, Channel.Linked, Channel.Matched, Channel.Tail, NoRepeats;
      c := new Channel(preference);
      channels := channels + {c};
    }

    /** The ring after the current tasklet ended. */
    ghost function AfterEnd(e: Ending): seq<Tasklet>
      requires ring != []
      reads `ring
    {
      if e == Failed && |ring| > 1 then [main] + Minus(ring, main)[1..] else Rest()
    }

    /**
     * The exits of _tasklet_wrapper: the current tasklet ended, normally, killed, or with an exception that
     * main is to see.  Then main is current; otherwise the next runnable is.
     */
    method Exit(e: Ending)
      requires Inv(null, null) && current != main
      modifies `current, `ring, ring`next, ring`prev, tasklets`next, tasklets`prev, main`channel, current`alive
      modifies channels
      ensures ring == old(AfterEnd(e)) && !old(current).alive && old(current) !in ring
      ensures Inv(null, if e == Failed || |old(ring)| == 1 then old(Harm(main)) else null)
      ensures (e == Failed || |old(ring)| == 1) && old(Harm(main)) != null ==> old(main.channel).EndLost()
      ensures (e == Finished && |old(ring)| > 1) || old(main.channel) == null ==> unchanged(channels)
      ensures Nearer()
      ensures Kept(old(|ring| == 1 || e == Failed), old(Lines()), old(main.channel), Lines())
    {
      hide Circular, Channel.Linked, Channel.Matched, Channel.Tail, Ticketed, Idle, Placed, ChannelsOk, OffLine, Lines;
      RingFacts();
      var t := current;
      if e == Failed && t.next != t {
        FailOver();
      } else {
        RemoveCurrent();
      }
      t.alive := false;
    }

    /** An exception while others are runnable: main leaves its channel, and takes over. */
    method FailOver()
      requires Inv(null, null) && current != main && |ring| > 1
      modifies `current, `ring, ring`next, ring`prev, tasklets`next, tasklets`prev, main`channel, channels
      ensures ring == [main] + Minus(old(ring), main)[1..] && old(current) !in ring
      ensures Inv(null, old(Harm(main)))
      ensures old(Harm(main)) != null ==> old(main.channel).EndLost()
      ensures Nearer() && (old(main.channel) == null ==> unchanged(channels))
      ensures OffLine(old(Lines()), old(main.channel), main, Lines())
    {
      hide Circular, Channel.Linked, Channel.Matched, Channel.Tail, Ticketed, ChannelsOk, OffLine, Lines;
      NobodyOff(Lines(), main);
      ghost var b := Harm(main);
      if main.channel != null { RemoveFromChannel(main); }
      TakeOver(b);
    }

    method TakeOver(ghost b: Channel?)
      requires Inv(null, b) && current != main && |ring| > 1 && main.channel == null
      modifies `current, `ring, ring`next, ring`prev, main`next, main`prev
      ensures ring == [main] + Minus(old(ring), main)[1..] && old(current) !in ring
      ensures Inv(null, b)
    {
      hide Circular, Channel.Linked, Channel.Matched, Channel.Tail, Ticketed, ChannelsOk, Idle, NoRepeats;
      MainCanMove(b);
      InsertAfterCurrent(main, b);
      LeaveRing(b);
    }

    lemma MainCanMove(b: Channel?)
      requires Inv(null, b) && main.channel == null
      ensures Inv(main, b) && main in tasklets && (main in ring || main.prev != current)
    {
    }

    // -------------------------------------------------------------- channels

    /** The only waiter on `c` has current as its stale `prev`: the handover would not put it on the ring. */
    ghost predicate Stale(c: Channel)
      reads `current, c`items, c.items`prev
    {
      |c.items| == 1 && c.items[0].prev == current
    }

    /** current has nobody to hand over to, so it must not wait. */
    ghost predicate Stuck()
      reads `current, `ring, main`channel
    {
      |ring| == 1 && (current == main || main.channel != null)
    }

    /** The test before a tasklet is blocked. */
    method WouldDeadlock() returns (r: bool)
      requires RingOk()
      ensures r == Stuck()
    {
      RingFacts();
      r := current.next == current && (current == main || main.channel != null);
    }

    /** The one just popped is put right behind current and runs: unless its `prev` is stale. */
    method HandTo(t: Tasklet)
      requires Inv(t, null) && Off(t) && t in tasklets
      modifies `current, `ring, ring`next, ring`prev, t`next, t`prev
      ensures current == t
      ensures old(t.prev) != old(current) ==> Inv(null, null) && ring == [t] + old(ring)[1..] + [old(ring)[0]]
      ensures old(t.prev) == old(current) ==> ring == old(ring) && t !in ring && t.next == null
    {
      hide Circular, Channel.Linked, Channel.Matched, Channel.Tail, Ticketed, ChannelsOk;
      ghost var was := ring;
      if t.prev != current { OffMinus(t); }
      InsertAfterCurrent(t, null);
      ScheduleTo(t);
      assert t in ring ==> ring == [t] + was[1..] + [was[0]];
    }

    lemma OffMinus(t: Tasklet)
      requires RingOk() && t !in ring
      ensures [ring[0], t] + Minus(ring, t)[1..] == [ring[0], t] + ring[1..]
    {
    }

    /** _schedule_to: current = t; a turn of the ring if `t` is the next runnable. */
    method ScheduleTo(t: Tasklet)
      requires t != current
      modifies `current, `ring
      ensures current == t
      ensures old(|ring| > 1 && ring[1] == t && Inv(null, null)) ==> Inv(null, null) && ring == Turned(old(ring), 1)
      ensures old(t !in ring) ==> ring == old(ring)
    {
      hide Linked, NoRepeats, Turned, Channel.Linked, Channel.Matched, Channel.Tail, Ticketed;
      if |ring| > 1 {
        TurnedMembers(ring, 1);
        if NoRepeats(ring) && Linked(ring) { TurnedLinked(ring, 1); }
      }
      current := t;
      if |ring| > 1 && ring[1] == t { ring := Turned(ring, 1); }
    }

    lemma HeadApart(c: Channel, t: Tasklet)
      requires Placed() && c in channels && Off(t)
      ensures c.items != [] ==> c.items[0] != t && c.items[0] !in ring
    {
      if c.items != [] { assert c.items[0] in c.items; }
    }

    /** Current steps down to wait: the next runnable is current. */
    method StepDown() returns (t: Tasklet)
      requires Inv(null, null) && !Stuck()
      modifies `current, `ring, ring`next, ring`prev, main`next, main`prev, current`source
      ensures Inv(null, null) && ring == old(Rest()) && t == old(current) && AboutToWait(t)
    {
      hide Circular, Channel.Linked, Channel.Matched, Channel.Tail, ChannelsOk;
      t := current;
      Forget(t);
      LeaveRing(null);
    }

    /** A receive that was cut short by an exception never returns its value. */
    ghost method Forget(t: Tasklet)
      requires Inv(null, null)
      modifies t`source
      ensures Inv(null, null) && t.source == null
    {
      t.source := null;
    }

    /**
     * _receive, up to the switch.  A sender that waits is met at once and made runnable, in front or behind
     * as the channel prefers; otherwise current waits, unless nobody could run then.
     */
    method Receive(c: Channel) returns (r: Received)
      requires Inv(null, null) && c in channels
      modifies `current, `ring, ring`next, ring`prev, main`next, main`prev, current`source, current`channel
      modifies c, c.items`next, c.items`prev, c.items`channel, c.items`data
      ensures c.preference == old(c.preference) && (r.Got? <==> old(c.balance) > 0)
      ensures r.Deadlock? <==> old(c.balance <= 0 && |ring| == 1 && (current == main || main.channel != null))
      ensures r.Deadlock? ==> Inv(null, null) && ring == old(ring) && unchanged(c)
      ensures r.Got? ==> |old(c.takes)| < |c.sends| && r.value == c.sends[|old(c.takes)|]
      ensures c.answers == if r.Got? then old(c.answers)[|old(c.takes)| := r.value] else old(c.answers)
      ensures old(current).source == if r.Waits? then null else old(current.source)
      ensures !r.Deadlock? ==>
        && c.sends == old(c.sends) && c.takes == old(c.takes) + [old(current)]
        && c.balance == old(c.balance) - 1
      ensures r.Waits? ==> Inv(null, null) && c.items == old(c.items) + [old(current)] && ring == old(Rest())
      ensures r.Waits? ==> old(current).channel == c
      ensures r.Got? ==> c.items == old(c.items)[1..] && (c.items != [] ==> c.items[0].prev == old(c.items)[0])
      ensures r.Got? && c.preference < 0 ==> Inv(null, null) && ring == old(ring) + [old(c.items)[0]]
      ensures r.Got? && c.preference >= 0 && !old(Stale(c)) ==>
                Inv(null, null) && ring == [old(c.items)[0]] + old(ring)[1..] + [old(current)]
      ensures r.Got? && c.preference >= 0 && old(Stale(c)) ==>
        ring == old(ring) && current !in ring && current.next == null
    {
      hide Circular, Channel.Linked, Channel.Matched, Channel.Tail, Ticketed, Idle;
      QueueFacts(c);
      RingFacts();
      if c.balance > 0 {
        var sender, value := WakeSender(c);
        HeadApart(c, sender);
        if c.preference >= 0 {
          HandTo(sender);
        } else {
          PutBefore(sender, null);
        }
        return Got(value);
      }
      var stuck := WouldDeadlock();
      if stuck { return Deadlock; }
      var t := StepDown();
      WaitToReceive(c, t);
      return Waits;
    }

    /** _send, up to the switch: the mirror image. */
    method Send(c: Channel, value: Value) returns (r: SendResult)
      requires Inv(null, null) && c in channels
      modifies `current, `ring, ring`next, ring`prev, main`next, main`prev, current`source, current`channel
      modifies current`data
      modifies c, c.items`next, c.items`prev, c.items`channel, c.items`data, c.items`source, c.items`turn
      ensures c.preference == old(c.preference) && (r == Sent <==> old(c.balance) < 0)
      ensures r == NoRunnable <==> old(c.balance >= 0 && |ring| == 1 && (current == main || main.channel != null))
      ensures r == NoRunnable ==> Inv(null, null) && ring == old(ring) && unchanged(c)
      ensures c.answers == old(c.answers)
      ensures r != NoRunnable ==>
        c.sends == old(c.sends) + [value] && c.takes == old(c.takes) && c.balance == old(c.balance) + 1
      ensures r == Blocks ==> Inv(null, null) && c.items == old(c.items) + [old(current)] && ring == old(Rest())
      ensures r == Blocks ==> old(current).channel == c
      ensures r == Sent ==> c.items == old(c.items)[1..] && (c.items != [] ==> c.items[0].prev == old(c.items)[0])
      ensures r == Sent ==> old(c.items)[0].data == Some(value)
      ensures r == Sent ==> old(c.items)[0].source == c && old(c.items)[0].turn == |old(c.sends)|
      ensures r == Sent ==> old(current).source == old(current.source) && old(current).data == old(current.data)
      ensures r == Sent && c.preference >= 0 ==> Inv(null, null) && ring == old(ring) + [old(c.items)[0]]
      ensures r == Sent && c.preference < 0 && !old(Stale(c)) ==>
                Inv(null, null) && ring == [old(c.items)[0]] + old(ring)[1..] + [old(current)]
      ensures r == Sent && c.preference < 0 && old(Stale(c)) ==>
        ring == old(ring) && current !in ring && current.next == null
    {
      hide Circular, Channel.Linked, Channel.Matched, Channel.Tail, Ticketed, Idle;
      QueueFacts(c);
      RingFacts();
      if c.balance < 0 {
        var receiver := WakeReceiver(c, value);
        HeadApart(c, receiver);
        if c.preference < 0 {
          HandTo(receiver);
        } else {
          PutBefore(receiver, null);
        }
        return Sent;
      }
      var stuck := WouldDeadlock();
      if stuck { return NoRunnable; }
      var t := StepDown();
      WaitToSend(c, t, value);
      return Blocks;
    }

    /**
     * The rest of _receive, once current runs again: it returns what it was handed, which is the value of
     * the n-th send if this is the n-th receive, and is recorded as its answer.
     */
    method Resume() returns (value: Value)
      requires Inv(null, null) && current.data.Some?
      modifies current`data, current`source, channels`answers
      ensures Inv(null, null) && current.source == null && current.data == None
      ensures old(current.source) == null ==> unchanged(channels)
      ensures old(current.source) != null ==>
                var c, n := old(current.source), old(current.turn);
                && c in channels && n < |c.sends| && n < |c.takes| && c.takes[n] == current && value == c.sends[n]
                && c.answers == old(current.source.answers)[n := value]
                && forall o :: o in channels && o != c ==> unchanged(o)
    {
      hide Circular, Channel.Linked, Channel.Tail, NoRepeats;
      CurrentFacts();
      value := current.data.value;
      Answer(current);
      Forget(current);
      SetData(current, None);
    }

    /** An exception is raised in the receive that current was to return from. */
    method GiveUp()
      requires Inv(null, null)
      modifies current`data, current`source
      ensures Inv(null, null) && current.source == null && current.data == None
    {
      hide Circular, Channel.Linked, Channel.Tail, Channel.Matched, NoRepeats;
      CurrentFacts();
      Forget(current);
      SetData(current, None);
    }

    /** The receive of `t` returns, if it was handed something. */
    ghost method Answer(t: Tasklet)
      requires Inv(null, null) && t in tasklets && (t.source != null ==> HasTicket(t))
      modifies channels`answers
      ensures Inv(null, null)
      ensures t.source == null ==> unchanged(channels)
      ensures t.source != null ==> HasTicket(t) && t.source.answers == old(t.source.answers)[t.turn := t.data.value]
      ensures t.source != null ==> forall o :: o in channels && o != t.source ==> unchanged(o)
    {
      hide Circular, Channel.Linked, Channel.Tail, NoRepeats;
      if t.source != null {
        t.source.answers := t.source.answers[t.turn := t.data.value];
      }
    }

    lemma CurrentFacts()
      requires Inv(null, null)
      ensures ring != [] && current == ring[0] && current in tasklets && current.channel == null
      ensures current.source != null ==> HasTicket(current)
    {
    }

    // -------------------------------------------------------------- runs

    method IsLastOfSeveral(t: Tasklet) returns (r: bool)
      requires Inv(null, null) && t in tasklets
      ensures r <==> Harm(t) != null
    {
      hide Circular, Channel.Matched, Ticketed, Idle;
      if t.channel == null { return false; }
      QueueFacts(t.channel);
      r := t == t.channel.queueLast && t != t.channel.queue;
    }

    method IsStale(c: Channel) returns (r: bool)
      requires Inv(null, null) && c in channels
      ensures r <==> Stale(c)
    {
      hide Circular, Channel.Matched, Ticketed, Idle;
      QueueFacts(c);
      r := c.queue != null && c.queue.next == null && c.queue.prev == current;
    }

    ghost function Alive(): set<Tasklet>
      reads `tasklets, tasklets`alive
    {
      set t | t in tasklets && t.alive
    }

    /** All that a step can change, as values. */
    ghost function Now(): (r: Scene)
      requires Inv(null, null)
      reads this, tasklets, channels, ring`next, ring`prev
      ensures r.ring == ring != [] && r.main == main && r.lines == Lines() && r.alive == Alive()
      ensures r.source == current.source && r.turn == current.turn
    {
      CurrentFacts();
      var on := map t | t in tasklets :: t.channel;
      var stale := set c | c in channels && Stale(c);
      Scene(main, ring, Lines(), on, Alive(), stale, current.source, current.turn)
    }

    lemma LineFacts(c: Channel)
      requires Inv(null, null) && c in channels
      ensures |c.items| == (if c.balance < 0 then -c.balance else c.balance) && |c.takes| == |c.sends| - c.balance
    {
      hide Circular, Ticketed, Idle, NoRepeats, Channel.Linked, Channel.Tail;
    }

    lemma SceneFacts()
      requires Inv(null, null)
      ensures forall t :: t in tasklets ==> BlockedOn(Now(), t) == t.channel && (LastIn(Now(), t) <==> Harm(t) != null)
      ensures (StuckIn(Now()) <==> Stuck()) && RestIn(Now()) == Rest()
      ensures forall t :: t in tasklets ==> (t in Alive() <==> t.alive)
      ensures Lines().Keys == channels
      ensures forall c :: c in channels ==> (c in Now().stale <==> Stale(c)) && Lines()[c] == c.Now()
      ensures ring[0] == current && main in tasklets && forall t :: t in ring ==> t in tasklets
    {
      hide Circular, ChannelsOk, Ticketed, Idle, NoRepeats;
    }

    lemma OneLine(before: map<Channel, Line>, c: Channel)
      requires before.Keys == channels && c in channels && forall o :: o in channels && o != c ==> before[o] == o.Now()
      ensures Lines() == before[c := c.Now()]
    {
    }

    ghost predicate Known(ts: seq<Tasklet>, cs: seq<Channel>)
      reads `tasklets, `channels
    {
      (forall t :: t in ts ==> t in tasklets) && (forall c :: c in cs ==> c in channels)
    }

    /** A send, unless it hands over to a stale waiter. */
    method GiveStep(c: Channel, value: Value)
      requires Inv(null, null) && c in channels
      modifies `current, `ring, tasklets, channels
      ensures Inv(null, null) && Gives(old(Now()), c, value, Now())
    {
      hide Inv, Stale, Now, Alive, Lines, Gives, StuckIn, LastIn, BlockedOn, Harm;
      LineFacts(c);
      SceneFacts();
      ghost var a := Now();
      var stale := IsStale(c);
      if stale && c.preference < 0 && c.balance < 0 {
        StaleGives(a, c, value);
        return;
      }
      var r := SendOn(c, value);
      GivesAs(a, c, value, r, c.Now(), Now());
    }

    method SendOn(c: Channel, value: Value) returns (r: SendResult)
      requires Inv(null, null) && c in channels && (c.balance < 0 && c.preference < 0 ==> !Stale(c))
      modifies `current, `ring, tasklets, channels
      ensures Inv(null, null) && Lines() == old(Lines())[c := c.Now()] && Alive() == old(Alive()) && c in channels
      ensures (r == Sent <==> old(c.balance) < 0) && (r == NoRunnable <==> old(c.balance) >= 0 && old(Stuck()))
      ensures c.answers == old(c.answers) && c.preference == old(c.preference)
      ensures r == NoRunnable ==> ring == old(ring) && c.Now() == old(c.Now())
      ensures r != NoRunnable ==> c.sends == old(c.sends) + [value] && c.balance == old(c.balance) + 1
      ensures r == Blocks ==> c.items == old(c.items) + [old(current)] && ring == old(Rest())
      ensures r == Sent ==>
        && c.items == old(c.items)[1..]
        && ring == if c.preference >= 0 then old(ring) + [old(c.items)[0]]
           else [old(c.items)[0]] + old(ring)[1..] + [old(current)]
    {
      hide RingOk, Placed, ChannelsOk, Ticketed, Idle, Stale, Alive, Rest;
      StepFacts(c);
      LineFacts(c);
      ghost var before := Lines();
      r := Send(c, value);
      OneLine(before, c);
    }

    lemma StaleGives(a: Scene, c: Channel, value: Value)
      requires a.ring != [] && c in a.lines && a.lines[c].balance < 0 && a.lines[c].preference < 0 && c in a.stale
      ensures Gives(a, c, value, a)
    {
    }

    lemma GivesAs(a: Scene, c: Channel, value: Value, r: SendResult, l: Line, b: Scene)
      requires a.ring != [] && c in a.lines && |a.lines[c].items| >= -a.lines[c].balance
      requires (r == Sent <==> a.lines[c].balance < 0) && (r == NoRunnable <==> a.lines[c].balance >= 0 && StuckIn(a))
      requires r == Sent ==> !(a.lines[c].preference < 0 && c in a.stale)
      requires b.alive == a.alive && b.lines == a.lines[c := l]
      requires r == NoRunnable ==> l == a.lines[c] && b.ring == a.ring
      requires r != NoRunnable ==>
        && l.sends == a.lines[c].sends + [value] && l.answers == a.lines[c].answers
        && l.balance == a.lines[c].balance + 1 && l.preference == a.lines[c].preference
      requires r == Blocks ==> l.items == a.lines[c].items + [a.ring[0]] && b.ring == RestIn(a)
      requires r == Sent ==>
        && l.items == a.lines[c].items[1..]
        && b.ring == MetRing(a, a.lines[c].items[0], l.preference >= 0)
      ensures Gives(a, c, value, b)
    {
      hide StuckIn, RestIn, MetRing;
      assert a.lines[c := a.lines[c]] == a.lines;
    }

    /** A receive, unless it hands over to a stale waiter. */
    method TakeStep(c: Channel)
      requires Inv(null, null) && c in channels
      modifies `current, `ring, tasklets, channels
      ensures Inv(null, null) && Takes(old(Now()), c, Now())
    {
      hide Inv, Stale, Now, Alive, Lines, Takes, StuckIn, LastIn, BlockedOn, Harm;
      LineFacts(c);
      SceneFacts();
      ghost var a := Now();
      var stale := IsStale(c);
      if stale && c.preference >= 0 && c.balance > 0 {
        StaleTakes(a, c);
        return;
      }
      var r := ReceiveOn(c);
      TakesAs(a, c, r, c.Now(), Now());
    }

    method ReceiveOn(c: Channel) returns (r: Received)
      requires Inv(null, null) && c in channels && (c.balance > 0 && c.preference >= 0 ==> !Stale(c))
      modifies `current, `ring, tasklets, channels
      ensures Inv(null, null) && Lines() == old(Lines())[c := c.Now()] && Alive() == old(Alive()) && c in channels
      ensures (r.Got? <==> old(c.balance) > 0) && (r.Deadlock? <==> old(c.balance) <= 0 && old(Stuck()))
      ensures c.sends == old(c.sends) && c.preference == old(c.preference)
      ensures r.Deadlock? ==> ring == old(ring) && c.Now() == old(c.Now())
      ensures !r.Deadlock? ==> c.balance == old(c.balance) - 1
      ensures r.Waits? ==>
        && c.items == old(c.items) + [old(current)] && ring == old(Rest())
        && c.answers == old(c.answers)
      ensures r.Got? ==>
        && old(|c.takes| == |c.sends| - c.balance && |c.takes| < |c.sends|)
        && c.answers == old(c.answers[|c.takes| := c.sends[|c.takes|]])
      ensures r.Got? ==>
        && c.items == old(c.items)[1..]
        && ring == if c.preference < 0 then old(ring) + [old(c.items)[0]]
           else [old(c.items)[0]] + old(ring)[1..] + [old(current)]
    {
      hide RingOk, Placed, ChannelsOk, Ticketed, Idle, Stale, Alive, Rest;
      StepFacts(c);
      LineFacts(c);
      ghost var before := Lines();
      r := Receive(c);
      OneLine(before, c);
    }

    lemma StaleTakes(a: Scene, c: Channel)
      requires a.ring != [] && c in a.lines && a.lines[c].balance > 0 && a.lines[c].preference >= 0 && c in a.stale
      ensures Takes(a, c, a)
    {
    }

    lemma TakesAs(a: Scene, c: Channel, r: Received, l: Line, b: Scene)
      requires a.ring != [] && c in a.lines && |a.lines[c].items| >= a.lines[c].balance
      requires (r.Got? <==> a.lines[c].balance > 0) && (r.Deadlock? <==> a.lines[c].balance <= 0 && StuckIn(a))
      requires r.Got? ==> !(a.lines[c].preference >= 0 && c in a.stale)
      requires b.alive == a.alive && b.lines == a.lines[c := l]
      requires r.Deadlock? ==> l == a.lines[c] && b.ring == a.ring
      requires !r.Deadlock? ==>
        && l.sends == a.lines[c].sends && l.balance == a.lines[c].balance - 1
        && l.preference == a.lines[c].preference
      requires r.Waits? ==>
        && l.items == a.lines[c].items + [a.ring[0]] && b.ring == RestIn(a)
        && l.answers == a.lines[c].answers
      requires r.Got? ==>
        && l.items == a.lines[c].items[1..]
        && b.ring == MetRing(a, a.lines[c].items[0], l.preference < 0)
      requires r.Got? ==>
        && 0 <= |l.sends| - a.lines[c].balance
        && var n := |l.sends| - a.lines[c].balance; l.answers == a.lines[c].answers[n := l.sends[n]]
      ensures Takes(a, c, b)
    {
      hide StuckIn, RestIn, MetRing;
      assert a.lines[c := a.lines[c]] == a.lines;
    }

    lemma StepFacts(c: Channel)
      requires Inv(null, null) && c in channels
      ensures current in tasklets && main in tasklets
      ensures (forall t :: t in ring ==> t in tasklets) && (forall t :: t in c.items ==> t in tasklets)
    {
    }

    /** Something done to a tasklet. */
    method TaskletStep(input: Input, t: Tasklet)
      requires Inv(null, null) && t in tasklets
      modifies `current, `ring, tasklets, channels
      requires input.Add? || input.Drop? || input.SwitchTo? || input.Kill?
      ensures Inv(null, null) && Treats(old(Now()), input, t, Now())
    {
      hide Inv, Harm, FrontedIn, Minus, OffLine, Now, Alive, Lines, BlockedOn, LastIn, StuckIn, RestIn, Nearer;
      SceneFacts();
      match input
      case Add(_) => var _ := Insert(t);
      case Drop(_) => var _ := Remove(t);
      case SwitchTo(_) => var _ := Run(t);
      case Kill(_) =>
        var last := IsLastOfSeveral(t);
        if !last { var _ := Throw(t); }
    }

    /** Something current does about itself, unless main would have to leave its channel as the last of several. */
    method OwnStep(input: Input)
      requires Inv(null, null)
      modifies `current, `ring, tasklets, channels
      requires input.Yield? || input.Leave? || input.End? || input.Return?
      ensures Inv(null, null) && Acts(old(Now()), input, Now())
    {
      hide Inv, Harm, Now, Alive, Lines, RestIn, Rest, OffLine, LastIn, Minus, BlockedOn, StuckIn;
      NextIsCurrent();
      SceneFacts();
      var last := IsLastOfSeveral(main);
      match input
      case Yield => Schedule();
      case Leave => if !last || current.next != current || current == main { ScheduleRemove(); }
      case End(e) => if current != main && (!last || (e == Finished && current.next != current)) { EndStep(e); }
      case Return => ReturnStep();
    }

    method ReturnStep()
      requires Inv(null, null)
      modifies current`data, current`source, channels`answers
      ensures Inv(null, null) && Alive() == old(Alive())
      ensures if old(current.source) == null then Lines() == old(Lines())
              else AnswersOn(old(Lines()), old(current.source), old(current.turn), Lines())
    {
      hide RingOk, Placed, ChannelsOk, Ticketed, Idle;
      CurrentFacts();
      ghost var c, n, before := current.source, current.turn, Lines();
      if current.data.Some? {
        var _ := Resume();
        if c != null { OneLine(before, c); }
      }
    }

    lemma NextIsCurrent()
      requires Inv(null, null)
      ensures current.next == current <==> |ring| == 1
    {
      RingFacts();
    }

    method EndStep(e: Ending)
      requires Inv(null, null) && current != main && (Harm(main) == null || (e == Finished && |ring| > 1))
      modifies `current, `ring, ring`next, ring`prev, tasklets`next, tasklets`prev, main`channel, current`alive
      modifies channels
      ensures Inv(null, null) && ring == old(AfterEnd(e)) && Alive() == old(Alive()) - {old(current)}
      ensures Kept(old(|ring| == 1 || e == Failed), old(Lines()), old(main.channel), Lines())
    {
      hide Inv, AfterEnd, Lines, OffLine, Harm;
      Exit(e);
    }

    /**
     * Main result on whole runs: whatever the tasklets do, the runnables stay one ring that current is on,
     * every channel's queue stays apart from it, balances stay exact, and the n-th receive on a channel,
     * if it returned, returned the value of the n-th send.  Left out of the run are only the withdrawal of
     * the last of several waiters, and the handover to a stale one.
     */
    method Play(inputs: seq<Input>) returns (ghost story: seq<Record>)
      requires Inv(null, null)
      modifies this, tasklets, channels
      ensures Inv(null, null)
      ensures forall c, n :: c in channels && n in c.answers ==>
        n < |c.sends| && n < |c.takes| && c.answers[n] == c.sends[n]
      ensures |story| == |inputs| + 1 && Tells(story, inputs)
      ensures story[0] == Record([main], [], old(Now())) && story[|inputs|].now == Now()
    {
      hide Inv, Leads, Now, Tells;
      MainKnown();
      var ts: seq<Tasklet>, cs: seq<Channel> := [main], [];
      story := [Record(ts, cs, Now())];
      NothingTold(story);
      assert inputs[..0] == [];
      for k := 0 to |inputs|
        invariant Inv(null, null) && Known(ts, cs)
        invariant fresh(tasklets - old(tasklets)) && fresh(channels - old(channels))
        invariant |story| == k + 1 && story[0] == Record([main], [], old(Now())) && story[k] == Record(ts, cs, Now())
        invariant Tells(story, inputs[..k])
      {
        ghost var before := Record(ts, cs, Now());
        ts, cs := Step(inputs[k], ts, cs);
        TellsOn(story, inputs, k, Record(ts, cs, Now()));
        story := story + [Record(ts, cs, Now())];
      }
      assert inputs[..|inputs|] == inputs;
      Answered();
    }

    lemma MainKnown()
      requires Inv(null, null)
      ensures main in tasklets
    {
    }

    lemma Answered()
      requires Inv(null, null)
      ensures forall c, n :: c in channels && n in c.answers ==>
        n < |c.sends| && n < |c.takes| && c.answers[n] == c.sends[n]
    {
    }

    method Step(input: Input, ts: seq<Tasklet>, cs: seq<Channel>) returns (ts': seq<Tasklet>, cs': seq<Channel>)
      requires Inv(null, null) && Known(ts, cs)
      modifies this, tasklets, channels
      ensures Inv(null, null) && Known(ts', cs')
      ensures fresh(tasklets - old(tasklets)) && fresh(channels - old(channels))
      ensures Leads(Record(ts, cs, old(Now())), input, Record(ts', cs', Now()))
    {
      hide Inv, Treats, Gives, Takes, Acts;
      ts', cs' := ts, cs;
      match input
      case New =>
        var t := SpawnStep();
        ts' := ts + [t];
      case Open(preference) =>
        var c := OpenStep(preference);
        cs' := cs + [c];
      case Take(c) => if c < |cs| { TakeStep(cs[c]); }
      case Give(c, value) => if c < |cs| { GiveStep(cs[c], value); }
      case Add(t) => if t < |ts| { TaskletStep(input, ts[t]); }
      case Drop(t) => if t < |ts| { TaskletStep(input, ts[t]); }
      case SwitchTo(t) => if t < |ts| { TaskletStep(input, ts[t]); }
      case Kill(t) => if t < |ts| { TaskletStep(input, ts[t]); }
      case _ => OwnStep(input);
    }

    method OpenStep(preference: int) returns (c: Channel)
      requires Inv(null, null)
      modifies `channels
      ensures Inv(null, null) && fresh(c) && channels == old(channels) + {c} && Alive() == old(Alive())
      ensures ring == old(ring) && Lines() == old(Lines())[c := Line(0, preference, [], [], map[])]
    {
      hide Inv, Alive;
      ghost var before := Lines();
      c := NewChannel(preference);
    }

    method SpawnStep() returns (t: Tasklet)
      requires Inv(null, null)
      modifies `ring, `tasklets, tasklets
      ensures Inv(null, null) && fresh(t) && tasklets == old(tasklets) + {t}
      ensures ring == old(ring) + [t] && Lines() == old(Lines()) && Alive() == old(Alive()) + {t}
    {
      hide Circular, ChannelsOk, Ticketed, Idle;
      t := Spawn();
    }
  }

  // ---------------------------------------------------------------- the stale link at work

  /** Another tasklet comes to receive on `c`, which already has `old` waiting. */
  method ReceiverComes(s: Scheduler, c: Channel) returns (t: Tasklet)
    requires s.Inv(null, null) && s.ring == [s.main] && c in s.channels && c.balance <= 0
    modifies s, s.main, c, c.items`next, c.items`prev, c.items`channel, c.items`data
    ensures s.Inv(null, null) && s.ring == [s.main] && s.channels == old(s.channels) && fresh(t)
    ensures s.tasklets == old(s.tasklets) + {t} && t.alive && t.channel == c
    ensures c.items == old(c.items) + [t] && c.balance == old(c.balance) - 1 && c.preference == old(c.preference)
  {
    hide Scheduler.Placed, Scheduler.Idle, Scheduler.ChannelsOk, Scheduler.Ticketed, Scheduler.Circular;
    t := s.Spawn();
    s.Schedule();
    assert s.ring == [t, s.main];
    var _ := s.Receive(c);
  }

  /** Main, which runs alone, kills the second of two receivers. */
  method KillsSecond(s: Scheduler, c: Channel, r1: Tasklet, r2: Tasklet)
    requires s.Inv(null, null) && s.ring == [s.main] && c in s.channels && c.balance == -2 && c.items == [r1, r2]
      && r1 != r2
    requires r2 in s.tasklets && r2.alive && r2.channel == c
    modifies s, s.tasklets, s.channels
    ensures c.balance == -1 && |c.items| == 1 && c.queue == c.items[0] && c.queueLast == null
  {
    hide Scheduler.Idle, Scheduler.Ticketed, Scheduler.Circular;
    MinusAt(c.items, r2, 1);
    assert Cut(c.items, 1) == [r1];
    var _ := s.Throw(r2);
  }

  /**
   * Two receivers wait, and the second is killed: the first still waits, and the pointer to the end of the
   * queue is null, which the next tasklet that waits follows.
   */
  method LostEnd() returns (c: Channel)
    ensures fresh(c) && c.balance == -1 && |c.items| == 1 && c.queue == c.items[0] && c.queueLast == null
  {
    hide Scheduler.Placed, Scheduler.Idle, Scheduler.ChannelsOk, Scheduler.Ticketed, Scheduler.Circular;
    var s := new Scheduler();
    c := s.NewChannel(-1);
    var r1 := ReceiverComes(s, c);
    var r2 := ReceiverComes(s, c);
    assert c.items == [r1, r2];
    KillsSecond(s, c, r1, r2);
  }

  /** Main, which runs alone, sends to the first of two receivers: it runs, and is the second's `prev`. */
  method MainSends(s: Scheduler, c: Channel)
    requires s.Inv(null, null) && s.ring == [s.main] && c in s.channels && c.preference < 0
    requires c.balance == -2 && |c.items| == 2
    modifies s, s.main, c, c.items
    ensures s.Inv(null, null) && s.ring == [old(c.items[0]), s.main] && c in s.channels && c.preference < 0
    ensures c.balance == -1 && c.items == [old(c.items[1])] && s.Stale(c)
  {
    hide Scheduler.Placed, Scheduler.Idle, Scheduler.ChannelsOk, Scheduler.Ticketed, Scheduler.Circular;
    s.QueueFacts(c);
    var _ := s.Send(c, 1);
  }

  /**
   * Two receivers wait.  The first, woken by main, sends to the second while it is still the second's stale
   * `prev`: the second is current then without being on the ring.
   */
  method LostReceiver() returns (s: Scheduler)
    ensures fresh(s) && s.current.next == null && s.current !in s.ring && |s.ring| == 2
  {
    hide Scheduler.Placed, Scheduler.Idle, Scheduler.ChannelsOk, Scheduler.Ticketed, Scheduler.Circular;
    s := new Scheduler();
    var c := s.NewChannel(-1);
    var r1 := ReceiverComes(s, c);
    var r2 := ReceiverComes(s, c);
    assert c.items == [r1, r2];
    MainSends(s, c);
    assert s.ring == [r1, s.main];
    var _ := s.Send(c, 2);
  }
}
