/** The queue on top of a channel: messages pile up when there is no receiver, and no wake-up is lost. */
module Queues {
  import opened Bytes
  import opened Scheduling
  import opened Sequences

  datatype Op = Append(item: Value) | AppendLeft(item: Value) | PopLeft | Pop | Yield | New | End(e: Ending)

  /** What was put in and taken out, the wake-ups given up, and whether it was first in, first out. */
  datatype Account = Account(put: seq<Value>, got: seq<Value>, givenUp: nat, inOrder: bool)

  /**
   * The items, what was put in and taken out, the runnables, and who waits for an item; whether the runnable
   * tasklet has a receive to return from, whether it must not wait, and whether its end would leave main damaged.
   */
  datatype Moment = Moment(deque: seq<Value>, put: seq<Value>, got: seq<Value>, ring: seq<Tasklet>,
    waiting: seq<Tasklet>, main: Tasklet, woken: bool, stuck: bool, safe: bool)

  class Queue {
    var deque: seq<Value>
    const channel: Channel
    /** All items put in, and all taken out, in order. */
    ghost var put: seq<Value>
    ghost var got: seq<Value>
    /** The wake-ups that came to nothing, because an exception was raised in the woken receiver. */
    ghost var givenUp: nat

    /** The receivers that were woken and did not run since. */
    ghost function Woken(s: Scheduler): set<Tasklet>
      reads s`tasklets, s.tasklets`source
    {
      set t | t in s.tasklets && t.source == channel
    }

    /**
     * No lost wake-up: while a receiver is blocked, every item has a woken receiver coming for it, except for
     * as many as gave up; `here` is 1 while one is just looking.
     */
    ghost predicate NoneLost(s: Scheduler, here: nat)
      reads `deque, `givenUp, channel, s`tasklets, s.tasklets`source
    {
      channel.balance < 0 ==> |deque| <= |Woken(s)| + here + givenUp
    }

    /** Every woken receiver is runnable, so its wake-up is not lost either. */
    ghost predicate Coming(s: Scheduler)
      reads channel, s`tasklets, s`ring, s.tasklets`source
    {
      forall t :: t in Woken(s) ==> t in s.ring
    }

    /** Nobody who can run has a receive to return from. */
    ghost predicate Quiet(s: Scheduler)
      reads s`ring, s.ring`data, s.main`data
    {
      s.main.data.None? && forall t :: t in s.ring ==> t.data.None?
    }

    /** First in, first out. */
    ghost predicate InOrder()
      reads `put, `got, `deque
    {
      put == got + deque
    }

    ghost predicate Inv(s: Scheduler, here: nat)
      reads this, channel, s, s.tasklets, s.channels, s.ring`next, s.ring`prev
    {
      && s.Inv(null, null) && channel in s.channels && channel.preference >= 0 && channel.balance <= 0
      && NoneLost(s, here) && Coming(s) && multiset(put) == multiset(got) + multiset(deque)
    }

    /** The items it starts with count as put in. */
    constructor (s: Scheduler, items: seq<Value>, preference: int)
      requires s.Inv(null, null) && preference >= 0
      modifies s`channels
      ensures Inv(s, 0) && InOrder() && deque == put == items && got == []
      ensures fresh(channel) && s.channels == old(s.channels) + {channel}
      ensures givenUp == 0 && channel.items == [] && channel.balance == 0
    {
      var c := s.NewChannel(preference);
      channel, deque, put, got, givenUp := c, items, items, [], 0;
    }

    /** Wakes the receiver that waits longest, if any waits. */
    method Wake(s: Scheduler, value: Value)
      requires s.Inv(null, null) && channel in s.channels && channel.preference >= 0 && channel.balance <= 0
        && Coming(s)
      modifies s`current, s`ring, s.tasklets, s.channels
      ensures s.Inv(null, null) && channel.preference == old(channel.preference)
      ensures if old(channel.balance) < 0 then channel.balance == old(channel.balance) + 1 else channel.balance == 0
      ensures old(channel.balance) < 0 ==> old(channel.items) != [] && s.ring == old(s.ring) + [old(channel.items)[0]]
      ensures old(channel.balance) == 0 ==> s.ring == old(s.ring) && Woken(s) == old(Woken(s))
      ensures Coming(s) && (old(channel.balance) < 0 ==> |Woken(s)| == |old(Woken(s))| + 1)
      ensures old(channel.balance) < 0 ==> old(channel.items)[0] in Woken(s) && channel.items == old(channel.items)[1..]
      ensures old(channel.balance) < 0 ==> old(channel.items)[0].data == Some(value)
      ensures old(channel.balance) == 0 ==> channel.items == old(channel.items)
      ensures forall t :: t in old(s.ring) ==> t.data == old(t.data)
    {
      hide Scheduler.Circular, Scheduler.Idle, Scheduler.Ticketed, Scheduler.Placed, Scheduler.ChannelsOk, NoRepeats;
      s.StepFacts(channel);
      Waiting(s);
      if channel.balance < 0 {
        ghost var r := channel.items[0];
        var _ := s.Send(channel, value);
        Waiting(s);
        assert Woken(s) == old(Woken(s)) + {r};
      }
    }

    /** Those who wait were not woken. */
    lemma Waiting(s: Scheduler)
      requires s.Inv(null, null) && channel in s.channels
      ensures forall t :: t in channel.items ==> t in s.tasklets && t !in Woken(s) && t !in s.ring
      ensures |channel.items| == if channel.balance >= 0 then channel.balance else -channel.balance
    {
      hide Scheduler.Circular, Scheduler.Idle, Channel.Linked, Channel.Tail, NoRepeats;
      s.QueueFacts(channel);
    }

    /** append, and appendleft for `left`: the item is in, and a blocked receiver is on its way to it. */
    method Insert(s: Scheduler, item: Value, left: bool)
      requires Inv(s, 0)
      modifies `deque, `put, s`current, s`ring, s.tasklets, s.channels
      ensures Inv(s, 0) && deque == if left then [item] + old(deque) else old(deque) + [item]
      ensures put == old(put) + [item] && got == old(got)
      ensures !left && old(InOrder()) ==> InOrder()
      ensures s.ring == if old(channel.balance) < 0 then old(s.ring) + [old(channel.items[0])] else old(s.ring)
      ensures old(channel.balance) < 0 ==>
        old(channel.items[0]) in Woken(s) && channel.balance == old(channel.balance) + 1
        && channel.items == old(channel.items)[1..]
        && old(channel.items[0]).data == Some(if left then item else 0)
      ensures Puts(old(Now(s)), item, left, Now(s))
      ensures forall t :: t in old(s.ring) ==> t.data == old(t.data)
    {
      hide Scheduler.Inv;
      Waiting(s);
      Total(put, got, deque, item, left);
      deque := if left then [item] + deque else deque + [item];
      put := put + [item];
      Wake(s, if left then item else 0);
    }

    lemma Total(put: seq<Value>, got: seq<Value>, deque: seq<Value>, item: Value, left: bool)
      requires multiset(put) == multiset(got) + multiset(deque)
      ensures multiset(put + [item]) == multiset(got) + multiset(if left then [item] + deque else deque + [item])
    {
    }

    lemma Removed(put: seq<Value>, got: seq<Value>, deque: seq<Value>, item: Value, left: bool, rest: seq<Value>)
      requires multiset(put) == multiset(got) + multiset(deque) && deque != []
      requires if left then item == deque[0] && rest == deque[1..]
        else item == deque[|deque| - 1] && rest == deque[..|deque| - 1]
      ensures deque == if left then [item] + rest else rest + [item]
      ensures multiset(put) == multiset(got + [item]) + multiset(rest)
      ensures left && put == got + deque ==> put == got + [item] + rest
    {
      if left {
        assert deque == [item] + rest;
      } else {
        assert deque == rest + [item];
      }
    }

    /** The end of popleft, and of pop unless `left`. */
    method TakeItem(s: Scheduler, left: bool) returns (item: Value)
      requires Inv(s, 1) && deque != []
      modifies `deque, `got
      ensures Inv(s, 0) && got == old(got) + [item] && put == old(put)
      ensures left && old(InOrder()) ==> InOrder()
      ensures if left then [item] + deque == old(deque) else deque + [item] == old(deque)
    {
      hide Scheduler.Inv;
      item := if left then deque[0] else deque[|deque| - 1];
      var rest := if left then deque[1..] else deque[..|deque| - 1];
      Removed(put, got, deque, item, left, rest);
      deque := rest;
      got := got + [item];
    }

    /** One round of the loop of popleft and pop: an item, or None if current has to wait, or must not. */
    method Round(s: Scheduler, left: bool) returns (item: Option<Value>)
      requires Inv(s, 1) && s.current !in Woken(s)
      modifies `deque, `got, s`current, s`ring, s.tasklets, s.channels
      ensures Inv(s, 0) && put == old(put)
      ensures item.Some? <==> old(deque) != []
      ensures item.Some? ==> got == old(got) + [item.value] && s.ring == old(s.ring)
      ensures item.Some? ==> if left then [item.value] + deque == old(deque) else deque + [item.value] == old(deque)
      ensures item.None? ==> deque == [] && got == old(got)
      ensures left && old(InOrder()) ==> InOrder()
      ensures item.None? && !old(s.Stuck()) ==>
                && channel.balance == old(channel.balance) - 1 && channel.items == old(channel.items) + [old(s.current)]
                && s.ring == old(s.Rest())
      ensures Looks(old(Now(s)), left, Now(s))
      ensures forall t :: t in old(s.ring) ==> t.data == old(t.data)
      ensures Woken(s) == old(Woken(s)) && StillWait(s, old(channel.items))
    {
      hide Scheduler.Inv, Scheduler.Harm;
      NotStarted(s, 1);
      if deque != [] {
        var i := TakeItem(s, left);
        return Some(i);
      }
      Wait(s);
      return None;
    }

    /** A receive of current, unless it must not wait. */
    method Wait(s: Scheduler)
      requires Inv(s, 1) && s.current !in Woken(s) && deque == []
      modifies s`current, s`ring, s.tasklets, s.channels
      ensures Inv(s, 0) && Woken(s) == old(Woken(s)) && StillWait(s, old(channel.items))
      ensures if old(s.Stuck()) then channel.items == old(channel.items) && s.ring == old(s.ring)
              else channel.balance == old(channel.balance) - 1 && s.ring == old(s.Rest())
                   && channel.items == old(channel.items) + [old(s.current)]
      ensures forall t :: t in old(s.ring) ==> t.data == old(t.data)
    {
      hide Scheduler.Circular, Channel.Linked, Channel.Tail, Channel.Matched, NoRepeats;
      s.StepFacts(channel);
      s.CurrentFacts();
      ghost var before, r := Woken(s), s.ring;
      var _ := s.Receive(channel);
      InRest(r, s.ring);
      assert Woken(s) == before;
    }

    lemma InRest(r: seq<Tasklet>, rest: seq<Tasklet>)
      requires r != [] && (|r| == 1 || rest == r[1..])
      ensures forall t :: t in r && t != r[0] ==> t in rest
    {
      assert r == [r[0]] + r[1..];
    }

    /** A receiver that was woken goes on: if another took the item meanwhile, it waits again. */
    method Again(s: Scheduler, left: bool) returns (item: Option<Value>)
      requires Inv(s, 0) && s.current.data.Some?
      modifies `deque, `got, s`current, s`ring, s.tasklets, s.channels
      ensures Inv(s, 0) && put == old(put)
      ensures item.Some? <==> old(deque) != []
      ensures item.Some? ==> got == old(got) + [item.value]
      ensures Looks(old(Now(s)), left, Now(s))
      ensures item.Some? ==> if left then [item.value] + deque == old(deque) else deque + [item.value] == old(deque)
      ensures item.None? ==> deque == [] && got == old(got)
      ensures left && old(InOrder()) ==> InOrder()
      ensures Woken(s) <= old(Woken(s)) && StillWait(s, old(channel.items))
    {
      hide Scheduler.Inv, Woken, Now, Looks;
      NotStarted(s, 0);
      StepFacts(s);
      ghost var a := Now(s);
      Awake(s);
      item := Round(s, left);
      NotStarted(s, 0);
      LooksTheSame(a, left, Now(s));
    }

    /** Whether current has a receive to return from makes no difference to what a look finds. */
    static lemma LooksTheSame(a: Moment, left: bool, b: Moment)
      requires a.ring != []
      ensures Looks(a.(woken := false), left, b) ==> Looks(a, left, b)
    {
    }

    /** Its receive returns, and it is about to look. */
    method Awake(s: Scheduler)
      requires Inv(s, 0) && s.current.data.Some?
      modifies s.current`data, s.current`source, s.channels`answers
      ensures Inv(s, 1) && s.current !in Woken(s) && Woken(s) <= old(Woken(s))
      ensures Now(s) == old(Now(s)).(woken := false)
    {
      hide Scheduler.Circular, Scheduler.Idle, Scheduler.Ticketed, Scheduler.Placed, Scheduler.ChannelsOk, NoRepeats,
           Scheduler.Stuck, Channel.Met;
      s.StepFacts(channel);
      ghost var before, harm := Woken(s), s.Harm(s.main);
      var _ := s.Resume();
      assert s.Harm(s.main) == harm;
      assert Woken(s) == before - {s.current};
    }

    /**
     * While a receiver is blocked and an item is there, a runnable receiver was woken for it, unless it gave
     * up: without failures, a queue whose receivers all wait is empty.
     */
    lemma SomeoneComes(s: Scheduler)
      requires Inv(s, 0) && channel.balance < 0 && |deque| > givenUp
      ensures exists t :: t in s.ring && t in Woken(s)
    {
      assert Woken(s) != {};
      var t :| t in Woken(s);
      assert t in s.ring;
    }

    static function PutBy(op: Op): seq<Value> {
      if op.Append? || op.AppendLeft? then [op.item] else []
    }

    static predicate LeavesItems(op: Op) {
      !op.Append? && !op.AppendLeft? && !op.PopLeft? && !op.Pop?
    }

    /** Everything that is to be put in by `ops`. */
    static function AllPutBy(ops: seq<Op>): multiset<Value> {
      if ops == [] then multiset{} else AllPutBy(ops[..|ops| - 1]) + multiset(PutBy(ops[|ops| - 1]))
    }

    static ghost predicate Fails(ops: seq<Op>) {
      exists i :: 0 <= i < |ops| && ops[i] == Op.End(Failed)
    }

    ghost function Books(): Account
      reads this
    {
      Account(put, got, givenUp, InOrder())
    }

    /** What a run may do to the items and the wake-ups. */
    static ghost predicate Did(ops: seq<Op>, a: Account, b: Account) {
      && a.put <= b.put && a.got <= b.got && multiset(b.put) <= multiset(a.put) + AllPutBy(ops)
      && ((forall i :: 0 <= i < |ops| ==> !ops[i].AppendLeft? && !ops[i].Pop?) && a.inOrder ==> b.inOrder)
      && a.givenUp <= b.givenUp && (!Fails(ops) ==> a.givenUp == b.givenUp)
    }

    static lemma DidNothing(a: Account)
      ensures Did([], a, a)
    {
    }

    static lemma DidMore(ops: seq<Op>, k: nat, a: Account, b: Account, c: Account)
      requires k < |ops| && Did(ops[..k], a, b)
      requires c.put == b.put || c.put == b.put + PutBy(ops[k])
      requires b.got <= c.got && b.givenUp <= c.givenUp && (ops[k] != Op.End(Failed) ==> c.givenUp == b.givenUp)
      requires !ops[k].AppendLeft? && !ops[k].Pop? && b.inOrder ==> c.inOrder
      ensures Did(ops[..k + 1], a, c)
    {
      hide PutBy;
      var was, now := ops[..k], ops[..k + 1];
      assert now[..k] == was && now[k] == ops[k];
      assert forall i :: 0 <= i < k ==> now[i] == was[i];
      assert multiset(c.put) <= multiset(b.put) + multiset(PutBy(ops[k]));
    }

    /** Each step leads from one moment to the next. */
    static ghost predicate Tells(story: seq<Moment>, ops: seq<Op>)
      requires |story| == |ops| + 1
    {
      forall k :: 0 <= k < |ops| ==> story[k].ring != [] && Leads(story[k], ops[k], story[k + 1])
    }

    static lemma NothingTold(story: seq<Moment>)
      requires |story| == 1
      ensures Tells(story, [])
    {
    }

    static lemma TellsOn(story: seq<Moment>, ops: seq<Op>, k: nat, now: Moment)
      requires k < |ops| && |story| == k + 1 && Tells(story, ops[..k])
      requires story[k].ring != [] && Leads(story[k], ops[k], now)
      ensures Tells(story + [now], ops[..k + 1])
    {
      hide Leads;
      var more := story + [now];
      forall i | 0 <= i < k + 1 ensures more[i].ring != [] && Leads(more[i], ops[..k + 1][i], more[i + 1]) {
        if i < k { assert ops[..k][i] == ops[i] && Leads(story[i], ops[..k][i], story[i + 1]); }
      }
    }

    lemma NotStarted(s: Scheduler, here: nat)
      requires Inv(s, here)
      ensures s.ring != [] && Now(s).ring == s.ring && s.ring[0] == s.current
    {
      s.CurrentFacts();
    }

    /** All of these wait, but for main, which is put back on the ring when nobody else is left. */
    ghost predicate StillWait(s: Scheduler, ts: seq<Tasklet>)
      reads channel`items
    {
      forall t :: t in ts && t != s.main ==> t in channel.items
    }

    ghost function Now(s: Scheduler): Moment
      requires s.ring != []
      reads this, channel, s, s.main, s.current, s.channels
      reads if s.main.channel != null then {s.main.channel} else {}
    {
      Moment(deque, put, got, s.ring, channel.items, s.main, s.current.data.Some?, s.Stuck(), s.Harm(s.main) == null)
    }

    /** A look at the items, from the left or the right: one is taken if there is one, else current waits if it can. */
    static ghost predicate Looks(a: Moment, left: bool, b: Moment)
      requires a.ring != []
    {
      && b.put == a.put
      && if a.deque != [] then
           && b.ring == a.ring && b.waiting == a.waiting
           && b.got == a.got + [if left then a.deque[0] else a.deque[|a.deque| - 1]]
           && b.deque == if left then a.deque[1..] else a.deque[..|a.deque| - 1]
         else
           && b.deque == [] && b.got == a.got
           && b.waiting == (if a.stuck then a.waiting else a.waiting + [a.ring[0]])
           && b.ring == if a.stuck then a.ring else RestOf(a)
    }

    static ghost function RestOf(a: Moment): seq<Tasklet>
      requires a.ring != []
    {
      if |a.ring| == 1 then [a.main] else a.ring[1..]
    }

    /** An item comes to one end, and the one that waits longest becomes runnable. */
    static ghost predicate Puts(a: Moment, item: Value, left: bool, b: Moment) {
      && b.deque == (if left then [item] + a.deque else a.deque + [item]) && b.put == a.put + [item] && b.got == a.got
      && b.ring == (if a.waiting == [] then a.ring else a.ring + [a.waiting[0]])
      && b.waiting == if a.waiting == [] then [] else a.waiting[1..]
    }

    /** No item comes or goes. */
    static ghost predicate SameItems(a: Moment, b: Moment) {
      b.deque == a.deque && b.put == a.put && b.got == a.got
    }

    static ghost predicate Turns(a: Moment, b: Moment)
      requires a.ring != []
    {
      SameItems(a, b) && b.waiting == a.waiting && b.ring == a.ring[1..] + [a.ring[0]]
    }

    static ghost predicate Comes(a: Moment, b: Moment) {
      && SameItems(a, b) && b.waiting == a.waiting
      && |b.ring| == |a.ring| + 1 && b.ring[..|a.ring|] == a.ring
    }

    /** The current tasklet ends, unless it is main, or main is damaged by it. */
    static ghost predicate Ends(a: Moment, e: Ending, b: Moment)
      requires a.ring != []
    {
      SameItems(a, b) && b.ring == EndRing(a, e)
    }

    static ghost function EndRing(a: Moment, e: Ending): seq<Tasklet>
      requires a.ring != []
    {
      if a.ring[0] == a.main || (!a.safe && (e == Failed || |a.ring| == 1)) then a.ring
      else if e == Failed && |a.ring| > 1 then [a.main] + Minus(a.ring, a.main)[1..]
      else RestOf(a)
    }

    lemma EndsOn(s: Scheduler, e: Ending)
      requires Inv(s, 0)
      ensures s.ring != [] && EndRing(Now(s), e)
        == if s.current != s.main && (s.Harm(s.main) == null || (e == Finished && |s.ring| > 1)) then s.AfterEnd(e)
           else s.ring
    {
      s.CurrentFacts();
    }

    /** What one step does: a tasklet with a receive to return from looks again, whatever is asked for. */
    static ghost predicate Leads(a: Moment, op: Op, b: Moment)
      requires a.ring != []
    {
      if a.woken then Looks(a, !op.Pop?, b)
      else match op
        case Append(item) => Puts(a, item, false, b)
        case AppendLeft(item) => Puts(a, item, true, b)
        case PopLeft => Looks(a, true, b)
        case Pop => Looks(a, false, b)
        case Yield => Turns(a, b)
        case New => Comes(a, b)
        case End(e) => Ends(a, e, b)
    }

    /** What the runnable tasklet does: it goes on with a receive it was woken from, or starts something. */
    method Step(s: Scheduler, op: Op)
      requires Inv(s, 0)
      modifies `deque, `put, `got, `givenUp, s, s.tasklets, s.channels
      ensures Inv(s, 0) && fresh(s.tasklets - old(s.tasklets)) && s.channels == old(s.channels)
      ensures !op.AppendLeft? && !op.Pop? && old(InOrder()) ==> InOrder()
      ensures put == old(put) + if old(s.current.data.None?) then PutBy(op) else []
      ensures old(got) <= got && |got| <= |old(got)| + 1
      ensures givenUp ==
        old(givenUp) + if op == Op.End(Failed) && old(s.current.data.None? && s.main in Woken(s)) then 1 else 0
      ensures PutBy(op) == [] && old(Woken(s)) == {} ==>
        Woken(s) == {} && givenUp == old(givenUp) && StillWait(s, old(channel.items))
      ensures LeavesItems(op) && old(Quiet(s)) ==> Quiet(s) && deque == old(deque)
      ensures Leads(old(Now(s)), op, Now(s))
    {
      hide Inv, InOrder, Woken, Quiet, StillWait, Now, Looks, Puts, Turns, Comes, Ends;
      StepFacts(s);
      NotWoken(s);
      if s.current.data.Some? {
        var _ := Again(s, !op.Pop?);
        return;
      }
      match op
      case Append(item) => Insert(s, item, false);
      case AppendLeft(item) => Insert(s, item, true);
      case PopLeft => var _ := Round(s, true);
      case Pop => var _ := Round(s, false);
      case Yield => Rest(s);
      case New => var _ := Begin(s);
      case End(e) => Finish(s, e);
    }

    lemma StepFacts(s: Scheduler)
      requires Inv(s, 0)
      ensures s.current in s.tasklets && s.Inv(null, null) && Now(s).woken == s.current.data.Some?
    {
      hide Scheduler.Inv;
      s.CurrentFacts();
    }

    lemma NotWoken(s: Scheduler)
      requires Inv(s, 0)
      ensures Inv(s, 1) && (Quiet(s) ==> s.current.data.None?)
      ensures s.current.data.None? ==> s.current !in Woken(s)
    {
      s.CurrentFacts();
    }

    /** Current lets the others run. */
    method Rest(s: Scheduler)
      requires Inv(s, 0)
      modifies s`current, s`ring
      ensures Inv(s, 0) && Woken(s) == old(Woken(s)) && (old(Quiet(s)) ==> Quiet(s))
      ensures Turns(old(Now(s)), Now(s))
      ensures StillWait(s, old(channel.items))
    {
      hide Scheduler.Inv;
      s.CurrentFacts();
      s.Schedule();
    }

    method Begin(s: Scheduler) returns (t: Tasklet)
      requires Inv(s, 0)
      modifies s`ring, s`tasklets, s.tasklets`next, s.tasklets`prev
      ensures Inv(s, 0) && fresh(s.tasklets - old(s.tasklets))
      ensures fresh(t) && t.data == None && s.ring == old(s.ring) + [t] && Comes(old(Now(s)), Now(s))
      ensures Woken(s) == old(Woken(s)) && (old(Quiet(s)) ==> Quiet(s)) && StillWait(s, old(channel.items))
    {
      hide Scheduler.Idle, Scheduler.Ticketed, Scheduler.Circular, Channel.Linked, Channel.Tail, Channel.Matched;
      s.StepFacts(channel);
      ghost var before := Woken(s);
      t := s.Spawn();
      assert Woken(s) == before;
    }

    /**
     * The current tasklet ends, unless main would have to leave its channel as the last of several.  If it
     * fails, main has the exception, or a StopIteration, raised in it: in its receive, if it was woken from one.
     */
    method Finish(s: Scheduler, e: Ending)
      requires Inv(s, 0) && s.current.data.None?
      modifies `givenUp, s`current, s`ring, s.tasklets, s.channels
      ensures Inv(s, 0)
      ensures givenUp == old(givenUp) + if e == Failed && old(s.main in Woken(s)) then 1 else 0
      ensures old(s.current == s.main || (s.Harm(s.main) != null && (e == Failed || |s.ring| == 1))) ==>
                s.ring == old(s.ring)
      ensures old(s.current != s.main && (s.Harm(s.main) == null || (e == Finished && |s.ring| > 1))) ==>
                s.ring == old(s.AfterEnd(e)) && (e == Failed ==> s.main.source == null && s.main.data == None)
      ensures old(s.main.channel) == null ==> channel.balance == old(channel.balance)
      ensures Ends(old(Now(s)), e, Now(s))
      ensures Woken(s) <= old(Woken(s)) && (old(Quiet(s)) ==> Quiet(s))
      ensures StillWait(s, old(channel.items))
    {
      hide Scheduler.Circular, Channel.Linked, Channel.Tail, Channel.Matched, NoRepeats, Minus,
           Scheduler.AfterEnd, EndRing;
      s.StepFacts(channel);
      s.RingFacts();
      NotWoken(s);
      EndsOn(s, e);
      if s.current == s.main { return; }
      var last := s.IsLastOfSeveral(s.main);
      if !last || (e == Finished && s.current.next != s.current) {
        Leave(s, e);
        if e == Failed { GiveUp(s); }
      }
    }

    method Leave(s: Scheduler, e: Ending)
      requires Inv(s, 0) && s.current != s.main && s.current !in Woken(s)
      requires e == Failed || |s.ring| == 1 ==> s.Harm(s.main) == null
      modifies s`current, s`ring, s.tasklets, s.channels
      ensures Inv(s, 0) && s.ring == old(s.AfterEnd(e)) && Woken(s) == old(Woken(s))
        && (e == Failed ==> s.current == s.main)
      ensures old(s.main.channel) == null ==> channel.balance == old(channel.balance)
      ensures old(Quiet(s)) ==> Quiet(s)
      ensures StillWait(s, old(channel.items))
    {
      hide Scheduler.Circular, Channel.Linked, Channel.Tail, Channel.Matched, NoRepeats, Scheduler.Kept, OffLine,
           Scheduler.Lines;
      s.StepFacts(channel);
      ghost var before, ring := Woken(s), s.ring;
      s.Exit(e);
      assert Woken(s) == before;
      InAfterEnd(ring, s.main, s.ring);
    }

    lemma InAfterEnd(r: seq<Tasklet>, main: Tasklet, rest: seq<Tasklet>)
      requires NoRepeats(r) && r != [] && main != r[0]
      requires |r| == 1 || rest == r[1..] || rest == [main] + Minus(r, main)[1..]
      ensures forall t :: t in r && t != r[0] ==> t in rest
    {
      assert r == [r[0]] + r[1..];
      if main in r {
        var k := PlaceOf(r, main);
        MinusAt(r, main, k);
        CutMembers(r, k);
        assert Cut(r, k) == [r[0]] + Cut(r, k)[1..];
      }
    }

    /** The exception is raised in main. */
    method GiveUp(s: Scheduler)
      requires Inv(s, 0)
      modifies `givenUp, s.current`data, s.current`source
      ensures Inv(s, 0) && givenUp == old(givenUp) + if s.current in old(Woken(s)) then 1 else 0
      ensures s.current.source == null && s.current.data == None && Woken(s) <= old(Woken(s))
    {
      hide Scheduler.Circular, Channel.Linked, Channel.Tail, Channel.Matched, NoRepeats;
      ghost var before := Woken(s);
      s.GiveUp();
      assert Woken(s) == before - {s.current};
      if s.current in before { givenUp := givenUp + 1; }
    }

    /**
     * Main result on whole runs: in every reachable state, while a receiver is blocked there are as many
     * woken receivers on the ring as items, unless a failure was raised in one; no item is lost or doubled.
     * While nobody is woken and nothing is put in, those who wait go on waiting, whatever else happens; and if
     * nobody asks for an item either, they do so beside the same items.
     */
    method Play(s: Scheduler, ops: seq<Op>) returns (ghost story: seq<Moment>)
      requires Inv(s, 0)
      modifies `deque, `put, `got, `givenUp, s, s.tasklets, s.channels
      ensures Inv(s, 0) && Did(ops, old(Books()), Books())
      ensures old(Woken(s)) == {} && (forall i :: 0 <= i < |ops| ==> PutBy(ops[i]) == []) ==>
        Woken(s) == {} && givenUp == old(givenUp) && StillWait(s, old(channel.items))
      ensures old(Quiet(s)) && (forall i :: 0 <= i < |ops| ==> LeavesItems(ops[i])) ==> deque == old(deque)
      ensures |story| == |ops| + 1 && story[0] == old(Now(s)) && story[|ops|] == Now(s) && Tells(story, ops)
    {
      hide Inv, InOrder, Woken, Quiet, PutBy, LeavesItems, Did, Leads, Now, Tells;
      NotStarted(s, 0);
      DidNothing(Books());
      story := [Now(s)];
      NothingTold(story);
      assert ops[..0] == [];
      for k := 0 to |ops|
        invariant Inv(s, 0) && fresh(s.tasklets - old(s.tasklets)) && s.channels == old(s.channels)
        invariant Did(ops[..k], old(Books()), Books())
        invariant old(Woken(s)) == {} && (forall i :: 0 <= i < k ==> PutBy(ops[i]) == []) ==>
          Woken(s) == {} && givenUp == old(givenUp) && StillWait(s, old(channel.items))
        invariant old(Quiet(s)) && (forall i :: 0 <= i < k ==> LeavesItems(ops[i])) ==>
          Quiet(s) && deque == old(deque)
        invariant |story| == k + 1 && story[0] == old(Now(s)) && s.ring == story[k].ring != [] && story[k] == Now(s)
        invariant Tells(story, ops[..k])
      {
        ghost var before := Books();
        Step(s, ops[k]);
        NotStarted(s, 0);
        TellsOn(story, ops, k, Now(s));
        story := story + [Now(s)];
        DidMore(ops, k, old(Books()), before, Books());
      }
      assert ops[..|ops|] == ops;
    }
  }

  /** Current, which is not alone on the ring, comes to the empty queue and waits. */
  method ComesToWait(s: Scheduler, q: Queue)
    requires q.Inv(s, 0) && q.deque == [] && |s.ring| >= 2 && s.ring[0].data.None?
    modifies q`deque, q`got, s`current, s`ring, s.tasklets, s.channels
    ensures q.Inv(s, 0) && q.deque == [] && s.ring == old(s.ring)[1..]
    ensures q.channel.items == old(q.channel.items) + [old(s.ring[0])]
      && q.channel.balance == old(q.channel.balance) - 1
    ensures forall t :: t in old(s.ring) ==> t.data == old(t.data)
  {
    hide Scheduler.Inv;
    s.CurrentFacts();
    q.NotWoken(s);
    var _ := q.Round(s, true);
  }

  /** A scheduler with three tasklets, and an empty queue. */
  method ThreeTasklets() returns (s: Scheduler, q: Queue, r: Tasklet, t: Tasklet)
    ensures fresh(s) && fresh(q) && fresh(s.tasklets) && fresh(s.channels) && q.Inv(s, 0)
    ensures q.deque == [] && q.givenUp == 0 && q.channel.items == [] && q.channel.balance == 0
    ensures s.ring == [s.main, r, t] && s.main.data == r.data == t.data == None && r != s.main
  {
    hide Scheduler.Inv, Queue.Inv, Queue.Now, Queue.Comes;
    s := new Scheduler();
    q := new Queue(s, [], 1);
    r := q.Begin(s);
    t := q.Begin(s);
  }

  method TwoWait(s: Scheduler, q: Queue, r: Tasklet, t: Tasklet)
    requires q.Inv(s, 0) && q.deque == [] && s.ring == [s.main, r, t] && s.main.data == r.data == t.data == None
    requires q.channel.items == [] && q.channel.balance == 0
    modifies q`deque, q`got, s`current, s`ring, s.tasklets, s.channels
    ensures q.Inv(s, 0) && q.deque == [] && s.ring == [t] && t.data == None
    ensures q.channel.items == [s.main, r] && q.channel.balance == -2
  {
    hide Scheduler.Inv, Queue.Inv, Queue.Woken, Queue.InOrder;
    ComesToWait(s, q);
    assert s.ring == [r, t] && q.channel.items == [s.main];
    ComesToWait(s, q);
  }

  /** What there is before the failure: main, woken for the item, and `r`, who waits. */
  method Prepare() returns (s: Scheduler, q: Queue, r: Tasklet, t: Tasklet)
    ensures fresh(s) && fresh(q) && fresh(s.tasklets) && fresh(s.channels)
    ensures q.Inv(s, 0) && t.data == None && s.ring == [t, s.main] && s.main in q.Woken(s)
    ensures q.channel.items == [r] && r != s.main && q.deque == [7] && q.givenUp == 0
  {
    hide Scheduler.Inv, Queue.Inv, Queue.Woken, Queue.InOrder;
    s, q, r, t := ThreeTasklets();
    TwoWait(s, q, r, t);
    q.Insert(s, 7, false);
  }

  lemma MainRuns(s: Scheduler)
    requires s.Inv(null, null) && s.main in s.ring[1..]
    ensures s.current == s.ring[0] && s.current != s.main && s.main.channel == null
  {
  }

  lemma OneRuns(s: Scheduler, q: Queue)
    requires q.Coming(s) && s.ring == [s.main] && s.main.source == null
    ensures q.Woken(s) == {}
  {
    assert forall t :: t in q.Woken(s) ==> t in s.ring;
  }

  /** The failure: main gives up, and nobody comes. */
  method FailsBeside(s: Scheduler, q: Queue, t: Tasklet)
    requires q.Inv(s, 0) && t.data == None && s.ring == [t, s.main] && s.main in q.Woken(s)
    modifies q`givenUp, s`current, s`ring, s.tasklets, s.channels
    ensures q.Inv(s, 0) && s.ring == [s.main] && q.Woken(s) == {} && q.Quiet(s)
    ensures q.givenUp == old(q.givenUp) + 1 && q.StillWait(s, old(q.channel.items))
  {
    hide Scheduler.Inv;
    MainRuns(s);
    assert Minus([t, s.main], s.main) == [t] by { MinusAt([t, s.main], s.main, 1); }
    q.Finish(s, Failed);
    OneRuns(s, q);
  }

  /**
   * Main and another tasklet wait; an item is put in, and the tasklet that put it in fails: the exception is
   * raised in main, which was woken for the item, so that the other one waits beside it for good, whatever
   * happens next, unless somebody puts another item in or asks for this one.
   */
  method LostWakeUp(ops: seq<Op>) returns (s: Scheduler, q: Queue, r: Tasklet, ghost story: seq<Moment>)
    requires forall i :: 0 <= i < |ops| ==> Queue.LeavesItems(ops[i])
    ensures fresh(s) && fresh(q) && q.Inv(s, 0) && r in q.channel.items
    ensures q.channel.balance < 0 && q.deque == [7] && q.Woken(s) == {} && q.givenUp == 1
    ensures |story| == |ops| + 1 && Queue.Tells(story, ops) && s.ring != [] && story[|ops|] == q.Now(s)
    ensures story[0].deque == [7] && story[0].ring == [s.main]
  {
    hide Scheduler.Inv, Queue.Inv, Queue.Woken, Queue.Quiet;
    var t;
    s, q, r, t := Prepare();
    FailsBeside(s, q, t);
    story := q.Play(s, ops);
    q.NotStarted(s, 0);
    Blocked(s, q, r);
  }

  lemma Blocked(s: Scheduler, q: Queue, r: Tasklet)
    requires q.Inv(s, 0) && r in q.channel.items
    ensures q.channel.balance < 0
  {
    hide Scheduler.Inv;
    q.Waiting(s);
  }
}
