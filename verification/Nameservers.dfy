/** The ring of nameservers: up/down bookkeeping and the round-robin choice. */
module Nameservers {
  import opened Bytes
  import opened Sequences

  /** Seconds to wait before the next probe of a server that is down. */
  const PROBE_DELAYS := [10, 60, 300, 900, 3600]

  function ProbeDelay(failures: nat): (delay: nat)
    ensures delay == match failures case 0 => 10 case 1 => 60 case 2 => 300 case 3 => 900 case _ => 3600
  {
    PROBE_DELAYS[if failures < 4 then failures else 4]
  }

  class Nameserver {
    const address: nat
    /** The ring runs through `next`; `prev` is kept for two servers at most and never followed. */
    var next: Nameserver
    var prev: Nameserver
    /** False while the server is thought to be down. */
    var state: bool
    /** The last send met a full socket. */
    var choked: bool
    /** We asked to be told when the socket can be written. */
    var writeWaiting: bool
    var failedTimes: nat
    var timedout: nat
    /** The delay the probe timer was set to, while it runs. */
    var probeTimer: Option<nat>

    constructor (address: nat)
      ensures this.address == address && next == this
      ensures state && !choked && !writeWaiting && failedTimes == timedout == 0 && probeTimer == None
    {
      this.address := address;
      next, prev := this, this;
      state, choked, writeWaiting := true, false, false;
      failedTimes, timedout, probeTimer := 0, 0, None;
    }

    /** A full socket is always watched; a probe timer runs only while down, at the delay of the back-off. */
    ghost predicate Sound()
      reads this
    {
      && (choked ==> writeWaiting)
      && (state ==> failedTimes == 0 && probeTimer == None)
      && (!state ==> failedTimes >= 1 && (probeTimer.Some? ==> probeTimer.value == ProbeDelay(failedTimes - 1)))
    }
  }

  /** The place after `i` in a ring of `n`. */
  function After(i: nat, n: nat): nat {
    if i + 1 < n then i + 1 else 0
  }

  /** The place `k` steps on from `at`. */
  function Around(at: nat, k: nat, n: nat): (r: nat)
    requires at < n
    ensures r < n
  {
    (at + k) % n
  }

  lemma AroundNext(at: nat, k: nat, n: nat)
    requires at < n
    ensures Around(at, k + 1, n) == After(Around(at, k, n), n)
  {
    var q, r := (at + k) / n, (at + k) % n;
    if r + 1 < n {
      QuotientIs(at + k + 1, n, q, r + 1);
    } else {
      QuotientIs(at + k + 1, n, q + 1, 0);
    }
  }

  ghost predicate Exactly(s: seq<Nameserver>, m: set<Nameserver>) {
    (forall x :: x in s ==> x in m) && (forall x :: x in m ==> x in s)
  }

  /** One ring through `next`, in the order of `s`. */
  ghost predicate Linked(s: seq<Nameserver>)
    reads s`next
  {
    forall i {:trigger s[i].next} :: 0 <= i < |s| ==> s[i].next == s[After(i, |s|)]
  }

  /** `r` is `s` with `x` put in at place `k`. */
  ghost predicate IsInserted(r: seq<Nameserver>, s: seq<Nameserver>, k: nat, x: Nameserver) {
    && k <= |s| && |r| == |s| + 1 && r[k] == x
    && (forall i :: 0 <= i < k ==> r[i] == s[i])
    && (forall i :: k < i < |r| ==> r[i] == s[i - 1])
  }

  lemma Insert(s: seq<Nameserver>, k: nat, x: Nameserver) returns (r: seq<Nameserver>)
    requires k <= |s|
    ensures IsInserted(r, s, k, x)
  {
    r := s[..k] + [x] + s[k..];
  }

  /** What follows what, once `x` was put in behind place `k`. */
  lemma InsertedAt(r: seq<Nameserver>, s: seq<Nameserver>, k: nat, x: Nameserver)
    requires k < |s| && IsInserted(r, s, k + 1, x)
    ensures |r| == |s| + 1 && r[k] == s[k] && r[k + 1] == x && r[After(k + 1, |r|)] == s[After(k, |s|)]
    ensures forall i :: 0 <= i < |r| && i != k + 1 ==>
      r[i] == s[if i <= k then i else i - 1]
        && (i != k ==> r[After(i, |r|)] == s[After(if i <= k then i else i - 1, |s|)])
  {
  }

  lemma InsertedIsExact(r: seq<Nameserver>, s: seq<Nameserver>, k: nat, x: Nameserver, m: set<Nameserver>)
    requires IsInserted(r, s, k, x) && Exactly(s, m) && NoRepeats(s) && x !in m
    ensures Exactly(r, m + {x}) && NoRepeats(r) && |r| == |s| + 1
  {
    forall y | y in m ensures y in r {
      var i :| 0 <= i < |s| && s[i] == y;
      assert r[if i < k then i else i + 1] == y;
    }
  }

  lemma AloneIsExact(x: Nameserver, m: set<Nameserver>)
    requires Exactly([], m)
    ensures Exactly([x], m + {x}) && NoRepeats([x])
  {
  }

  /** The place of the first server that is up among the `n` from place `at` on. */
  ghost function FindUp(s: seq<Nameserver>, at: nat, up: set<Nameserver>, n: nat): (r: Option<nat>)
    requires at < |s|
    ensures r.Some? ==> r.value < |s| && s[r.value] in up
    decreases n
  {
    if n == 0 then None
    else if s[at] in up then Some(at)
    else FindUp(s, After(at, |s|), up, n - 1)
  }

  class NameserverRing {
    var head: Nameserver?
    /** global_good_nameservers */
    var good: int
    /** The ring in `next` order, the place of `head` in it, and the servers as a set. */
    ghost var order: seq<Nameserver>
    ghost var at: nat
    ghost var members: set<Nameserver>

    ghost predicate Valid()
      reads this, order`next, members`state
    {
      && Exactly(order, members)
      && NoRepeats(order)
      && Linked(order)
      && (if order == [] then head == null else at < |order| && head == order[at])
      && good == |Up()|
    }

    ghost function Up(): set<Nameserver>
      reads `members, members`state
    {
      set s | s in members && s.state
    }

    constructor ()
      ensures Valid() && order == [] && members == {}
    {
      head, good, order, members := null, 0, [], {};
    }

    /** The server that is picked next. */
    ghost function Next(): (ns: Nameserver?)
      requires Valid()
      reads this, order`next, members`state
    {
      if order == [] then null
      else if good == 0 then order[After(at, |order|)]
      else
        match FindUp(order, at, Up(), |order|)
        case None => null
        case Some(k) => order[k]
    }

    /** server_head = server_head->next */
    method Advance()
      requires Valid() && head != null
      modifies `head, `at
      ensures Valid() && at == After(old(at), |order|)
    {
      head := head.next;
      at := After(at, |order|);
    }

    /**
     * nameserver_pick: the next server that is up, or just the next one if none is.  The head moves
     * behind the server picked, or onto it if none is up.
     */
    method Pick() returns (ns: Nameserver?)
      requires Valid()
      modifies `head, `at
      ensures Valid()
      ensures ns == old(Next())
      ensures order == [] ==> ns == null
      ensures order != [] ==> ns in members
      ensures order != [] && good == 0 ==> at == After(old(at), |order|) && ns == order[at]
      ensures order != [] && good > 0 ==>
        var found := FindUp(order, old(at), Up(), |order|);
        found.Some? && ns == order[found.value] && ns.state && at == After(found.value, |order|)
    {
      if head == null { return null; }
      if good == 0 {
        Advance();
        return head;
      }
      ghost var left: nat := |order|;
      ghost var found := FindUp(order, at, Up(), |order|);
      SomeUpIsFound(order, at, Up(), members);
      while !head.state
        invariant Valid() && left <= |order|
        invariant found.Some? && FindUp(order, at, Up(), left) == found
        decreases left
      {
        Advance();
        left := left - 1;
      }
      ns := head;
      Advance();
    }

    /** `n` picks in a row; as many as servers are up visit each of them exactly once. */
    method PickEach(n: nat) returns (picks: seq<Nameserver>)
      requires Valid() && good > 0
      modifies `head, `at
      ensures Valid() && picks == Picks(order, old(at), Up(), n) && at == PlaceAfter(order, old(at), Up(), n)
      ensures n == good ==> |picks| == n && NoRepeats(picks) && Exactly(picks, Up())
    {
      hide Valid, Exactly, NoRepeats, FindUp, Picks, PlaceAfter;
      picks := [];
      EachOnce();
      PickNone(order, at, Up());
      for i := 0 to n
        invariant Valid() && good > 0 && order != [] && at < |order|
        invariant Picks(order, old(at), Up(), n) == picks + Picks(order, at, Up(), n - i)
        invariant PlaceAfter(order, old(at), Up(), n) == PlaceAfter(order, at, Up(), n - i)
      {
        PickOne(order, at, Up(), n - i);
        var ns := Pick();
        picks := picks + [ns];
      }
      PickNone(order, at, Up());
    }

    /** The head stands where `n - 1` picks leave it after a pick of `ns`, which is up. */
    ghost predicate PickedAgo(ns: Nameserver?, n: nat)
      reads this, members`state
    {
      && ns != null && ns in Up() && n > 0
      && exists k :: 0 <= k < |order| && order[k] == ns && at < |order|
                     && PlaceAfter(order, After(k, |order|), Up(), n - 1) == at
    }

    /** The next pick is that server again exactly if it closes a full turn. */
    lemma PickedAgain(ns: Nameserver, n: nat)
      requires Valid() && PickedAgo(ns, n)
      ensures good > 0 && good == |Up()| && Next() != null
      ensures Next() == ns <==> Multiple(n, good)
    {
      hide Multiple, Linked, NoRepeats;
      var k :| 0 <= k < |order| && order[k] == ns && PlaceAfter(order, After(k, |order|), Up(), n - 1) == at;
      ComesBack(order, k, Up(), members, n);
      PicksSplit(order, After(k, |order|), Up(), n - 1, 1);
      SomeUpIsFound(order, at, Up(), members);
      assert n - 1 + 1 == n;
      assert Picks(order, at, Up(), 1) == [Next()];
    }

    lemma Facts()
      requires Valid()
      ensures (order == [] <==> head == null) && (head != null ==> head in members)
      ensures good == |Up()| && forall s :: s in order ==> s in members
    {
    }

    /** The next pick is the head, if that is up. */
    lemma HeadIsNext()
      requires Valid() && head != null && head.state
      ensures Next() == head && head in Up()
    {
      assert head in order;
      assert head in Up() && Up() != {};
    }

    lemma EachOnce()
      requires Valid() && good > 0
      ensures order != [] && at < |order| && good == |Up()|
      ensures var picks := Picks(order, at, Up(), |Up()|);
        |picks| == |Up()| && NoRepeats(picks) && Exactly(picks, Up())
    {
      RoundRobin(order, at, Up(), members);
    }

    /** Marks `ns` as down and sets its first probe timer; true if it was up. */
    method MarkDown(ns: Nameserver) returns (wasUp: bool)
      requires Valid() && ns in members
      modifies `good, ns`state, ns`failedTimes, ns`probeTimer
      ensures Valid() && wasUp == old(ns.state) && !ns.state
      ensures Up() == old(Up()) - {ns}
      ensures wasUp ==> ns.failedTimes == 1 && ns.probeTimer == Some(ProbeDelay(0))
      ensures !wasUp ==> ns.failedTimes == old(ns.failedTimes) && ns.probeTimer == old(ns.probeTimer)
    {
      if !ns.state { return false; }
      good := good - 1;
      ns.state, ns.failedTimes, ns.probeTimer := false, 1, Some(PROBE_DELAYS[0]);
      assert Up() == old(Up()) - {ns};
      return true;
    }

    /** nameserver_up */
    method MarkUp(ns: Nameserver)
      requires Valid() && ns in members
      modifies `good, ns`state, ns`failedTimes, ns`probeTimer, ns`timedout
      ensures Valid() && ns.state && Up() == old(Up()) + {ns}
      ensures old(ns.state) ==> unchanged(ns)
      ensures !old(ns.state) ==> ns.failedTimes == ns.timedout == 0 && ns.probeTimer == None
    {
      if ns.state { return; }
      ns.probeTimer, ns.state, ns.failedTimes, ns.timedout := None, true, 0, 0;
      good := good + 1;
      assert Up() == old(Up()) + {ns};
    }

    /** Links `ns` in behind the head. */
    method LinkIn(ns: Nameserver)
      requires Valid() && ns !in members
      modifies `head, `order, `at, order`next, order`prev, ns`next, ns`prev
      ensures Linked(order) && head != null && at < |order| && head == order[at]
      ensures if old(order) == [] then order == [ns]
              else at == old(at) && IsInserted(order, old(order), at + 1, ns)
      ensures ns.prev == if old(head) == null then ns else old(head)
      ensures old(head != null && head.prev == head) ==> old(head).prev == ns
    {
      if head == null {
        ns.next, ns.prev := ns, ns;
        head := ns;
        order, at := [ns], 0;
      } else {
        LinkBehind(ns);
      }
    }

    method LinkBehind(ns: Nameserver)
      requires Linked(order) && NoRepeats(order) && at < |order| && head == order[at] && ns !in order
      modifies `order, order`next, order`prev, ns`next, ns`prev
      ensures Linked(order) && IsInserted(order, old(order), at + 1, ns) && head == order[at]
      ensures ns.prev == head == old(head) && (old(head.prev) == head ==> head.prev == ns)
    {
      hide IsInserted;
      ghost var longer := Insert(order, at + 1, ns);
      InsertedAt(longer, order, at, ns);
      ns.next := head.next;
      ns.prev := head;
      head.next := ns;
      if head.prev == head { head.prev := ns; }
      order := longer;
    }

    method Enrol(ns: Nameserver)
      requires ns !in members && ns.state && good == |Up()|
      modifies `members, `good
      ensures members == old(members) + {ns} && good == |Up()| == old(good) + 1 && Up() == old(Up()) + {ns}
    {
      members := members + {ns};
      good := good + 1;
      assert Up() == old(Up()) + {ns};
    }

    /** The bookkeeping of _evdns_nameserver_add_impl for a new server. */
    method Add(ns: Nameserver)
      requires Valid() && ns !in members && ns.state
      modifies this, order`next, order`prev, ns`next, ns`prev
      ensures Valid() && members == old(members) + {ns} && good == old(good) + 1 && Up() == old(Up()) + {ns}
      ensures |order| == |old(order)| + 1
      ensures if old(order) == [] then order == [ns]
              else at == old(at) && IsInserted(order, old(order), at + 1, ns)
      ensures ns.prev == if old(head) == null then ns else old(head)
      ensures old(head != null && head.prev == head) ==> old(head).prev == ns
    {
      hide IsInserted, Exactly, NoRepeats, Linked, Up;
      LinkIn(ns);
      if old(order) == [] {
        AloneIsExact(ns, members);
      } else {
        InsertedIsExact(order, old(order), at + 1, ns, members);
      }
      Enrol(ns);
    }

    /** True if no server has this address yet, found by one turn around the ring. */
    method Unknown(address: nat) returns (r: bool)
      requires Valid()
      ensures r <==> forall s :: s in members ==> s.address != address
    {
      if head == null { return true; }
      var server: Nameserver := head;
      ghost var i: nat, turned := at, false;
      while true
        invariant i < |order| && server == order[i] && (turned ==> i < at) && (!turned ==> at <= i)
        invariant forall k :: at <= k < (if turned then |order| else i) ==> order[k].address != address
        invariant turned ==> forall k :: 0 <= k < i ==> order[k].address != address
        decreases if turned then at - i else |order| + at - i
      {
        if server.address == address { return false; }
        server := server.next;
        i, turned := After(i, |order|), turned || i + 1 == |order|;
        if server == head { break; }
      }
      return true;
    }

    /** Drops every server, as evdns_clear_nameservers_and_suspend does first. */
    method Clear()
      requires Valid()
      modifies this
      ensures Valid() && order == [] && members == {} && good == 0
    {
      head, good, order, members := null, 0, [], {};
    }
  }

  /** `i` is the place `k` steps on from `at`. */
  predicate StepsOn(at: nat, k: nat, n: nat, i: nat) {
    i == if at + k < n then at + k else at + k - n
  }

  /** A walk over all places finds a server that is up if there is one. */
  lemma {:induction false} FindUpFrom(s: seq<Nameserver>, at: nat, up: set<Nameserver>, n: nat, k: nat, i: nat)
    requires at < |s| && k < n <= |s| && i < |s| && StepsOn(at, k, |s|, i) && s[i] in up
    ensures FindUp(s, at, up, n).Some?
    decreases n
  {
    if s[at] !in up {
      FindUpFrom(s, After(at, |s|), up, n - 1, k - 1, i);
    }
  }

  lemma SomeUpIsFound(s: seq<Nameserver>, at: nat, up: set<Nameserver>, m: set<Nameserver>)
    requires at < |s| && Exactly(s, m) && up <= m && |up| > 0
    ensures FindUp(s, at, up, |s|).Some?
  {
    var x :| x in up;
    var i :| 0 <= i < |s| && s[i] == x;
    FindUpFrom(s, at, up, |s|, if i >= at then i - at else i - at + |s|, i);
  }

  // ---------------------------------------------------------------- fairness

  /** The servers `n` successive picks return, while no state changes and some server is up. */
  ghost function Picks(s: seq<Nameserver>, at: nat, up: set<Nameserver>, n: nat): seq<Nameserver>
    requires at < |s|
    decreases n
  {
    if n == 0 then []
    else
      match FindUp(s, at, up, |s|)
      case None => []
      case Some(k) => [s[k]] + Picks(s, After(k, |s|), up, n - 1)
  }

  lemma PickNone(s: seq<Nameserver>, at: nat, up: set<Nameserver>)
    requires at < |s|
    ensures Picks(s, at, up, 0) == [] && PlaceAfter(s, at, up, 0) == at
  {
  }

  lemma PickOne(s: seq<Nameserver>, at: nat, up: set<Nameserver>, n: nat)
    requires at < |s| && n > 0
    ensures FindUp(s, at, up, |s|).Some? ==>
      var k := FindUp(s, at, up, |s|).value;
      && Picks(s, at, up, n) == [s[k]] + Picks(s, After(k, |s|), up, n - 1)
      && PlaceAfter(s, at, up, n) == PlaceAfter(s, After(k, |s|), up, n - 1)
  {
  }

  /** Where the head stands after `n` such picks. */
  ghost function PlaceAfter(s: seq<Nameserver>, at: nat, up: set<Nameserver>, n: nat): (r: nat)
    requires at < |s|
    ensures r < |s|
    decreases n
  {
    if n == 0 then at
    else
      match FindUp(s, at, up, |s|)
      case None => at
      case Some(k) => PlaceAfter(s, After(k, |s|), up, n - 1)
  }

  /** The servers that are up among the `n` from place `at` on. */
  ghost function UpAlong(s: seq<Nameserver>, at: nat, up: set<Nameserver>, n: nat): (r: seq<Nameserver>)
    requires at < |s|
    ensures forall x :: x in r ==> x in up
    decreases n
  {
    if n == 0 then []
    else if s[at] in up then [s[at]] + UpAlong(s, After(at, |s|), up, n - 1)
    else UpAlong(s, After(at, |s|), up, n - 1)
  }

  lemma {:induction false} FoundEarly(s: seq<Nameserver>, at: nat, up: set<Nameserver>, n: nat, n': nat)
    requires at < |s| && n <= n' && UpAlong(s, at, up, n) != []
    ensures FindUp(s, at, up, n').Some? && FindUp(s, at, up, n') == FindUp(s, at, up, n)
    decreases n
  {
    if s[at] !in up { FoundEarly(s, After(at, |s|), up, n - 1, n' - 1); }
  }

  lemma {:induction false} PicksFollowTheRing(s: seq<Nameserver>, at: nat, up: set<Nameserver>, n: nat)
    requires at < |s| && n <= |s|
    ensures Picks(s, at, up, |UpAlong(s, at, up, n)|) == UpAlong(s, at, up, n)
    decreases n
  {
    if n > 0 {
      var next := After(at, |s|);
      PicksFollowTheRing(s, next, up, n - 1);
      if s[at] !in up && UpAlong(s, next, up, n - 1) != [] {
        FoundEarly(s, next, up, n - 1, |s| - 1);
        FoundEarly(s, next, up, n - 1, |s|);
      }
    }
  }

  /** Every server on the way is met at its own place, and only there. */
  lemma {:induction false} UpAlongIsDistinct(s: seq<Nameserver>, at: nat, up: set<Nameserver>, n: nat)
    requires at < |s| && n <= |s| && NoRepeats(s)
    ensures NoRepeats(UpAlong(s, at, up, n))
    ensures forall i, k :: 0 <= i < |s| && 0 <= k < n && StepsOn(at, k, |s|, i) && s[i] in up ==>
      s[i] in UpAlong(s, at, up, n)
    ensures forall i, k :: 0 <= i < |s| && n <= k < |s| && StepsOn(at, k, |s|, i) ==> s[i] !in UpAlong(s, at, up, n)
    decreases n
  {
    if n > 0 {
      var next := After(at, |s|);
      UpAlongIsDistinct(s, next, up, n - 1);
      assert StepsOn(next, |s| - 1, |s|, at);
      forall i, k | 0 <= i < |s| && 0 < k < |s| && StepsOn(at, k, |s|, i)
        ensures StepsOn(next, k - 1, |s|, i) && s[i] != s[at]
      {
      }
    }
  }

  /** One turn meets every server that is up, once. */
  lemma AllAlong(s: seq<Nameserver>, at: nat, up: set<Nameserver>, m: set<Nameserver>)
    requires at < |s| && Exactly(s, m) && NoRepeats(s) && up <= m
    ensures var along := UpAlong(s, at, up, |s|);
      NoRepeats(along) && Exactly(along, up) && |along| == |up|
  {
    var along := UpAlong(s, at, up, |s|);
    UpAlongIsDistinct(s, at, up, |s|);
    forall x | x in up ensures x in along {
      var i :| 0 <= i < |s| && s[i] == x;
      assert StepsOn(at, if i >= at then i - at else i - at + |s|, |s|, i);
    }
    SizeOf(along, up);
  }

  /** Main result on the choice: as many picks as servers are up visit each of them exactly once. */
  lemma RoundRobin(s: seq<Nameserver>, at: nat, up: set<Nameserver>, m: set<Nameserver>)
    requires at < |s| && Exactly(s, m) && NoRepeats(s) && up <= m
    ensures var picks := Picks(s, at, up, |up|);
      |picks| == |up| && NoRepeats(picks) && Exactly(picks, up)
  {
    AllAlong(s, at, up, m);
    PicksFollowTheRing(s, at, up, |s|);
  }

  // ---------------------------------------------------------------- when the choice comes back

  lemma {:induction false} PicksSplit(s: seq<Nameserver>, at: nat, up: set<Nameserver>, n: nat, k: nat)
    requires at < |s|
    ensures Picks(s, at, up, n + k) == Picks(s, at, up, n) + Picks(s, PlaceAfter(s, at, up, n), up, k)
    ensures PlaceAfter(s, at, up, n + k) == PlaceAfter(s, PlaceAfter(s, at, up, n), up, k)
    decreases n
  {
    var found := FindUp(s, at, up, |s|);
    if n > 0 && found.Some? {
      PicksSplit(s, After(found.value, |s|), up, n - 1, k);
    }
  }

  /** While some server is up every pick finds one, and the head is behind it. */
  lemma {:induction false} BehindThePick(s: seq<Nameserver>, at: nat, up: set<Nameserver>, m: set<Nameserver>, n: nat)
    returns (k: nat)
    requires at < |s| && Exactly(s, m) && up <= m && |up| > 0 && n > 0
    ensures k < |s| && PlaceAfter(s, at, up, n) == After(k, |s|)
    ensures |Picks(s, at, up, n)| == n && Picks(s, at, up, n)[n - 1] == s[k] && s[k] in up
    decreases n
  {
    SomeUpIsFound(s, at, up, m);
    k := FindUp(s, at, up, |s|).value;
    if n > 1 { k := BehindThePick(s, After(k, |s|), up, m, n - 1); }
  }

  lemma {:induction false} LastAlong(s: seq<Nameserver>, at: nat, up: set<Nameserver>, n: nat, i: nat)
    requires at < |s| && 0 < n <= |s| && i < |s| && StepsOn(at, n - 1, |s|, i) && s[i] in up
    ensures var along := UpAlong(s, at, up, n); along != [] && along[|along| - 1] == s[i]
    decreases n
  {
    if n > 1 { LastAlong(s, After(at, |s|), up, n - 1, i); }
  }

  /** From behind a server that is up, as many picks as servers are up end with that server. */
  lemma FullTurn(s: seq<Nameserver>, place: nat, up: set<Nameserver>, m: set<Nameserver>)
    requires place < |s| && Exactly(s, m) && NoRepeats(s) && up <= m && s[place] in up
    ensures |up| > 0 && PlaceAfter(s, After(place, |s|), up, |up|) == After(place, |s|)
    ensures |Picks(s, After(place, |s|), up, |up|)| == |up|
      && Picks(s, After(place, |s|), up, |up|)[|up| - 1] == s[place]
  {
    var at := After(place, |s|);
    assert up != {};
    RoundRobin(s, at, up, m);
    AllAlong(s, at, up, m);
    PicksFollowTheRing(s, at, up, |s|);
    LastAlong(s, at, up, |s|, place);
    var k := BehindThePick(s, at, up, m, |up|);
    assert s[k] == s[place];
  }

  predicate Multiple(n: nat, g: nat)
    requires g > 0
  {
    n % g == 0
  }

  lemma Multiples(n: nat, g: nat)
    requires g > 0 && n > 0
    ensures if n <= g then Multiple(n, g) <==> n == g else Multiple(n, g) <==> Multiple(n - g, g)
  {
    if n > g {
      QuotientIs(n - g, g, n / g - 1, n % g);
    } else if n < g {
      QuotientIs(n, g, 0, n);
    } else {
      QuotientIs(n, g, 1, 0);
    }
  }

  lemma QuotientIs(x: nat, g: nat, q: int, r: nat)
    requires r < g && x == q * g + r
    ensures x % g == r
  {
    var d := x / g - q;
    assert d * g == r - x % g;
    AtLeastOnce(d, g);
  }

  lemma AtLeastOnce(d: int, g: nat)
    ensures d >= 1 ==> d * g >= g
    ensures d <= -1 ==> d * g + g <= 0
  {
  }

  /**
   * Main result on coming back: from behind a server that is up, with the states as they are, the `n`-th
   * pick is that server exactly if `n` is a multiple of the number of servers that are up.
   */
  lemma {:induction false} ComesBack(s: seq<Nameserver>, place: nat, up: set<Nameserver>, m: set<Nameserver>, n: nat)
    requires place < |s| && Exactly(s, m) && NoRepeats(s) && up <= m && s[place] in up && n > 0
    ensures |up| > 0 && |Picks(s, After(place, |s|), up, n)| == n
    ensures Picks(s, After(place, |s|), up, n)[n - 1] == s[place] <==> Multiple(n, |up|)
    decreases n
  {
    hide Multiple, Picks, PlaceAfter;
    var at, g := After(place, |s|), |up|;
    FullTurn(s, place, up, m);
    Multiples(n, g);
    if n <= g {
      PicksSplit(s, at, up, n, g - n);
      assert n + (g - n) == g;
      RoundRobin(s, at, up, m);
      var k := BehindThePick(s, at, up, m, n);
      assert Picks(s, at, up, n)[n - 1] == Picks(s, at, up, g)[n - 1];
    } else {
      PicksSplit(s, at, up, g, n - g);
      assert g + (n - g) == n;
      ComesBack(s, place, up, m, n - g);
      assert Picks(s, at, up, n)[n - 1] == Picks(s, at, up, n - g)[n - g - 1];
    }
  }
}
