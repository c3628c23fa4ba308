/** Pending requests and the circular lists that hold them. */
module Requests {
  import opened Bytes
  import opened Nameservers
  import opened SearchDomains
  import opened Sequences

  datatype Kind = A | Aaaa | Ptr

  /** Who is told: a caller, by the pointer it gave, or the prober of a server that is down. */
  datatype Callback = User(lookup: nat) | Probe(server: Nameserver)

  /**
   * The history of a lookup up to one of its requests: the name asked for, the names of its requests, this one
   * last, all its candidates in the order promised when it was accepted, the list it searches, the edits of
   * that list then, and the sends counted for the earlier requests.
   */
  datatype Story = Story(
    name: seq<Byte>,
    names: seq<seq<Byte>>,
    plan: seq<seq<Byte>>,
    list: SearchState?,
    edits: nat,
    spent: nat)

  class Request {
    const name: seq<Byte>
    const kind: Kind
    const callback: Callback

    /** Circular list; null until the request is put on one. */
    var next: Request?
    var prev: Request?
    /** The server it was last meant for; null while waiting. */
    var ns: Nameserver?
    var transId: nat
    /** What is sent. */
    var packet: seq<Byte>
    var txCount: nat
    var reissueCount: nat
    var transmitMe: bool
    /** The timeout event is pending. */
    var timer: bool
    var searchIndex: int
    var search: SearchState?
    var origName: seq<Byte>
    /** How often a sending of it was counted in all; unlike `txCount` it never starts over. */
    ghost var sends: nat
    ghost const story: Story

    /** request_new, once the packet could be built. */
    constructor (name: seq<Byte>, kind: Kind, callback: Callback, transId: nat, packet: seq<Byte>, ns: Nameserver?,
      ghost story: Story)
      ensures this.story == story && this.packet == packet && this.name == name && this.kind == kind
        && this.callback == callback
      ensures this.transId == transId && this.ns == ns && next == prev == null
      ensures txCount == reissueCount == sends == 0 && !transmitMe && !timer && search == null
      ensures searchIndex == 0 && origName == []
    {
      this.name, this.kind, this.callback := name, kind, callback;
      this.transId, this.ns, next, prev := transId, ns, null, null;
      txCount, reissueCount, sends, transmitMe, timer := 0, 0, 0, false, false;
      searchIndex, search, origName := 0, null, [];
      this.packet, this.story := packet, story;
    }
  }

  // ---------------------------------------------------------------- lists of requests as sequences

  ghost predicate Apart(s: seq<Request>, t: seq<Request>) {
    forall r :: r in s ==> r !in t
  }

  lemma TailMembers(s: seq<Request>)
    requires NoRepeats(s) && s != []
    ensures s[0] in s && s[0] !in s[1..]
    ensures forall r :: r in s[1..] ==> r in s
  {
  }

  lemma MinusMembers(s: seq<Request>, r: Request)
    requires NoRepeats(s) && r in s
    ensures |Minus(s, r)| == |s| - 1
    ensures forall q :: q in Minus(s, r) ==> q in s && q != r
    ensures forall q :: q in s && q != r ==> q in Minus(s, r)
  {
    var k := PlaceOf(s, r);
    MinusAt(s, r, k);
    CutMembers(s, k);
  }

  /** The lookups, by the caller's pointer, that a list of requests stands for. */
  ghost function Lookups(s: seq<Request>): multiset<nat> {
    if s == [] then multiset{}
    else Lookups(s[..|s| - 1]) + LookupOf(s[|s| - 1])
  }

  ghost function LookupOf(r: Request): multiset<nat> {
    match r.callback
    case User(lookup) => multiset{lookup}
    case Probe(_) => multiset{}
  }

  lemma {:induction false} LookupsConcat(s: seq<Request>, t: seq<Request>)
    ensures Lookups(s + t) == Lookups(s) + Lookups(t)
    decreases |t|
  {
    if t == [] {
      assert s + t == s;
    } else {
      assert (s + t)[..|s + t| - 1] == s + t[..|t| - 1];
      LookupsConcat(s, t[..|t| - 1]);
    }
  }

  lemma LookupsSingle(r: Request)
    ensures Lookups([r]) == LookupOf(r)
  {
    assert [r][..0] == [];
  }

  lemma {:induction false} LookupsCount(s: seq<Request>)
    ensures |Lookups(s)| <= |s|
  {
    if s != [] { LookupsCount(s[..|s| - 1]); }
  }

  ghost predicate Wanted(s: seq<Request>, lookup: nat) {
    exists r :: r in s && r.callback == User(lookup)
  }

  /** A lookup counts once for every request that stands for it. */
  lemma {:induction false} LookupsCounts(s: seq<Request>, lookup: nat)
    ensures Lookups(s)[lookup] > 0 <==> Wanted(s, lookup)
    ensures forall r, q :: r in s && q in s && r != q && r.callback == q.callback == User(lookup) ==>
      Lookups(s)[lookup] >= 2
  {
    if s != [] {
      var rest, last := s[..|s| - 1], s[|s| - 1];
      LookupsCounts(rest, lookup);
      assert forall r :: r in s <==> r in rest || r == last;
    }
  }

  lemma LookupsAround(s: seq<Request>, r: Request, t: seq<Request>)
    ensures Lookups(s + [r] + t) == Lookups(s + t) + LookupOf(r)
  {
    LookupsConcat(s + [r], t);
    LookupsConcat(s, [r]);
    LookupsSingle(r);
    LookupsConcat(s, t);
  }

  /** Taking one request off a list takes exactly its lookup off. */
  lemma LookupsMinus(s: seq<Request>, r: Request)
    requires NoRepeats(s) && r in s
    ensures Lookups(s) == Lookups(Minus(s, r)) + LookupOf(r)
  {
    var k := PlaceOf(s, r);
    MinusAt(s, r, k);
    assert s[..k] + [r] + s[k + 1..] == s;
    LookupsAround(s[..k], r, s[k + 1..]);
  }

  /** One circular doubly linked list. */
  ghost predicate Circular(s: seq<Request>)
    reads s`next, s`prev
  {
    && (forall i {:trigger s[i].next} :: 0 <= i < |s| ==> s[i].next == s[if i + 1 == |s| then 0 else i + 1])
    && (forall i {:trigger s[i].prev} :: 0 <= i < |s| ==> s[i].prev == s[if i == 0 then |s| - 1 else i - 1])
  }

  /** The neighbours of place `k` are linked to each other; all other links are those of a list. */
  ghost predicate Bridged(s: seq<Request>, k: nat)
    requires k < |s|
    reads s`next, s`prev
  {
    var b, j := if k == 0 then |s| - 1 else k - 1, if k + 1 == |s| then 0 else k + 1;
    && (forall i {:trigger s[i].next} :: 0 <= i < |s| && i != k ==>
          s[i].next == s[if i == b then j else if i + 1 == |s| then 0 else i + 1])
    && (forall i {:trigger s[i].prev} :: 0 <= i < |s| && i != k ==>
          s[i].prev == s[if i == j then b else if i == 0 then |s| - 1 else i - 1])
  }

  lemma ClosedAgain(s: seq<Request>, k: nat)
    requires NoRepeats(s) && k < |s| && |s| >= 2 && Bridged(s, k)
    ensures NoRepeats(Cut(s, k)) && Circular(Cut(s, k)) && Cut(s, k)[0] == s[if k == 0 then 1 else 0]
  {
    hide Cut;
  }

  class RequestList {
    var head: Request?
    /** The list from `head` on. */
    ghost var items: seq<Request>

    /** One circular doubly linked list, in the order of `items`. */
    ghost predicate Valid()
      reads this, items`next, items`prev
    {
      && NoRepeats(items)
      && (if items == [] then head == null else head == items[0])
      && Circular(items)
    }

    constructor ()
      ensures Valid() && items == []
    {
      head, items := null, [];
    }

    lemma HeadFacts()
      requires Valid()
      ensures head == null <==> items == []
    {
    }

    lemma Distinct()
      requires Valid()
      ensures NoRepeats(items)
    {
    }

    /** What a walk along `next` needs to know at place `i`. */
    lemma WalkFacts(i: nat)
      requires Valid() && i < |items|
      ensures head == items[0] && items[i].next == items[if i + 1 == |items| then 0 else i + 1]
      ensures forall k :: 0 <= k < |items| && k != i ==> items[k] != items[i]
      ensures forall k :: 0 < k < |items| ==> items[k] != head
    {
    }

    /** evdns_request_insert: at the tail. */
    method Insert(req: Request)
      requires Valid() && req !in items
      modifies this, items`next, items`prev, req`next, req`prev
      ensures Valid() && items == old(items) + [req]
    {
      if head == null {
        head := req;
        req.next, req.prev := req, req;
      } else {
        req.prev := head.prev;
        req.prev.next := req;
        req.next := head;
        head.prev := req;
      }
      items := items + [req];
    }

    /** The links of a request that leaves: its neighbours are linked, nothing else changes. */
    method Detach(req: Request, ghost k: nat)
      requires Valid() && k < |items| && items[k] == req && |items| >= 2
      modifies items`next, items`prev
      ensures Bridged(items, k) && old(req.next) == items[if k + 1 == |items| then 0 else k + 1]
      ensures req.next == old(req.next)
    {
      Neighbours(k);
      BridgeOver(req);
      NowBridged(k);
    }

    lemma Neighbours(k: nat)
      requires Valid() && k < |items| && |items| >= 2
      ensures items[k].next == items[if k + 1 == |items| then 0 else k + 1] && items[k].next != items[k]
      ensures items[k].prev == items[if k == 0 then |items| - 1 else k - 1] && items[k].prev != items[k]
      ensures items[k] in items && items[k].next in items && items[k].prev in items
    {
    }

    method BridgeOver(req: Request)
      requires req in items && req.next != null && req.prev != null && req.next in items && req.prev in items
      requires req.next != req && req.prev != req
      modifies items`next, items`prev
      ensures req.next == old(req.next) && req.prev == old(req.prev)
      ensures old(req.prev).next == old(req.next) && old(req.next).prev == old(req.prev)
      ensures forall q :: q in items && q != old(req.prev) ==> q.next == old(q.next)
      ensures forall q :: q in items && q != old(req.next) ==> q.prev == old(q.prev)
    {
      req.next.prev := req.prev;
      req.prev.next := req.next;
    }

    twostate lemma NowBridged(k: nat)
      requires old(Valid()) && k < |items| && |items| >= 2 && items == old(items)
      requires var req := items[k];
        && old(req.next) != null && old(req.prev) != null
        && old(req.prev).next == old(req.next) && old(req.next).prev == old(req.prev)
        && (forall q :: q in items && q != old(req.prev) ==> q.next == old(q.next))
        && (forall q :: q in items && q != old(req.next) ==> q.prev == old(q.prev))
      ensures Bridged(items, k)
    {
    }

    /** Takes `req`, which stands at place `k`, out, as request_finished does. */
    method UnlinkAt(req: Request, ghost k: nat)
      requires Valid() && k < |items| && items[k] == req
      modifies this, items`next, items`prev
      ensures Valid() && items == Cut(old(items), k)
    {
      hide Circular, Bridged, Cut, NoRepeats;
      AloneOrNot(k);
      if req.next == req {
        head := null;
      } else {
        Detach(req, k);
        ClosedAgain(items, k);
        if head == req { head := req.next; }
      }
      items := Cut(items, k);
    }

    lemma AloneOrNot(k: nat)
      requires Valid() && k < |items|
      ensures items[k].next == items[k] <==> |items| == 1
      ensures head == items[k] <==> k == 0
      ensures |items| == 1 ==> Cut(items, k) == [] && NoRepeats(Cut(items, k)) && Circular(Cut(items, k))
    {
    }

    method Unlink(req: Request)
      requires Valid() && req in items
      modifies this, items`next, items`prev
      ensures Valid() && items == Minus(old(items), req)
    {
      ghost var k := PlaceOf(items, req);
      MinusAt(items, req, k);
      UnlinkAt(req, k);
    }

    /** Takes the head out, as the pump does. */
    method PopHead() returns (req: Request)
      requires Valid() && items != []
      modifies this, items`next, items`prev
      ensures Valid() && req == old(items)[0] && items == old(items)[1..]
    {
      if head.next == head {
        req := head;
        head := null;
      } else {
        req := head;
        req.next.prev := req.prev;
        req.prev.next := req.next;
        head := req.next;
      }
      items := items[1..];
    }

    /** Shifts the start of the list back by one: the last item becomes the first. */
    method StepBack()
      requires Valid() && items != []
      modifies `head, `items
      ensures Valid() && items == [old(items)[|old(items)| - 1]] + old(items)[..|old(items)| - 1]
    {
      head := head.prev;
      items := [items[|items| - 1]] + items[..|items| - 1];
    }
  }
}
