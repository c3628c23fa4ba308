/**
 * The resolver as a step machine: lookups are submitted, replies arrive, timers fire, sockets become
 * writable, servers fail and come back, everything is suspended and resumed.  What the network does is
 * arbitrary.  The callback of a lookup records the outcome.
 */
module Resolving {
  import opened Bytes
  import opened NameParsing
  import opened NameWriting
  import opened NameRoundTrip
  import opened DnsRequest
  import opened Nameservers
  import opened SearchDomains
  import opened Requests
  import opened Sequences

  const NO_ID := 0xffff
  const ERR_FORMAT := 1
  const ERR_SERVERFAILED := 2
  const ERR_NOTEXIST := 3
  const ERR_NOTIMPL := 4
  const ERR_REFUSED := 5
  const ERR_TRUNCATED := 65
  const ERR_UNKNOWN := 66
  const ERR_TIMEOUT := 67

  function TypeOf(kind: Kind): nat {
    match kind
    case A => 1
    case Ptr => 12
    case Aaaa => 28
  }

  /** What sendto may do. */
  datatype SendResult = Sent | WouldBlock | ShortWrite | Broken

  /** The part of a parsed reply that decides what happens; the records are opaque. */
  datatype Reply = Reply(haveAnswer: bool, records: nat)

  datatype Outcome = Answer(ttl: nat, records: nat) | Error(code: nat)

  datatype Delivery = Delivery(lookup: nat, outcome: Outcome)

  /** What became of a request that heard from a server. */
  datatype Handled = Reissued | HandedOn(next: Request) | Told(outcome: Outcome)

  /** The response code, and the bit that says the reply was cut off. */
  ghost function Rcode(flags: nat): nat { flags % 0x10 }

  ghost predicate Truncated(flags: nat) { flags / 0x200 % 2 == 1 }

  /** The flag bits that mean an error: truncation and the response code. */
  predicate IsFailure(flags: nat, reply: Option<Reply>)
    ensures !IsFailure(flags, reply) <==>
      Rcode(flags) == 0 && !Truncated(flags) && reply.Some? && reply.value.haveAnswer
  {
    flags % 16 != 0 || flags / 0x200 % 2 == 1 || reply.None? || !reply.value.haveAnswer
  }

  /** The code of the failure; a response code of 0, or above 5, counts as unknown. */
  function ErrorOf(flags: nat): (code: nat)
    ensures code == if Truncated(flags) then 65 else if 1 <= Rcode(flags) <= 5 then Rcode(flags) else 66
  {
    if flags / 0x200 % 2 == 1 then ERR_TRUNCATED
    else if 1 <= flags % 16 <= 5 then
      [ERR_FORMAT, ERR_SERVERFAILED, ERR_NOTEXIST, ERR_NOTIMPL, ERR_REFUSED][flags % 16 - 1]
    else ERR_UNKNOWN
  }

  /** Everything that can happen to the resolver.  Servers and requests are named by their place in the ring. */
  datatype Input =
    | Lookup(kind: Kind, name: seq<Byte>, noSearch: bool, lookup: nat)
    | Packet(server: nat, transId: nat, isAnswer: bool, flags: nat, ttl: nat, reply: Option<Reply>)
    | RequestTimer(place: nat)
    | ProbeTimer(server: nat)
    | Room(server: nat)
    | ReadError(server: nat)
    | AddServer(address: nat)
    | SuspendAll
    | ResumeAll
    | AddDomain(domain: seq<Byte>)
    | ClearDomains
    | SetNdots(ndots: int)

  /** The lookups that a run asks for. */
  function AskedFor(inputs: seq<Input>): multiset<nat> {
    if inputs == [] then multiset{}
    else
      var last := inputs[|inputs| - 1];
      AskedFor(inputs[..|inputs| - 1]) + if last.Lookup? then multiset{last.lookup} else multiset{}
  }

  lemma AskedForGrows(inputs: seq<Input>, k: nat)
    ensures AskedFor([]) == multiset{}
    ensures k < |inputs| ==> AskedFor(inputs[..k + 1]) == AskedFor(inputs[..k]) + AskedFor([inputs[k]])
  {
    if k < |inputs| {
      assert inputs[..k + 1][..k] == inputs[..k] && [inputs[k]][..0] == [];
    }
  }

  /** Codes that mark the server as a bad one. */
  predicate BadServer(code: nat) {
    code == ERR_NOTIMPL || code == ERR_REFUSED
  }

  /** The lookups whose callbacks were called. */
  ghost function Delivered(ds: seq<Delivery>): multiset<nat> {
    if ds == [] then multiset{} else Delivered(ds[..|ds| - 1]) + multiset{ds[|ds| - 1].lookup}
  }

  /** "www.google.com" */
  const PROBE_NAME: seq<Byte> := [119, 119, 119, 46, 103, 111, 111, 103, 108, 101, 46, 99, 111, 109]

  lemma ProbeNameIsEncodable()
    ensures Encodable(PROBE_NAME)
    ensures |PROBE_NAME| == |PROBE_TEXT| && forall i :: 0 <= i < |PROBE_NAME| ==> PROBE_NAME[i] == PROBE_TEXT[i] as int
  {
    hide Encodable, LabelsFit, PROBE_NAME, PROBE_TEXT;
    ProbeText();
    NameLimits(PROBE_NAME);
  }

  const PROBE_TEXT := "www.google.com"

  lemma ProbeText()
    ensures |PROBE_NAME| == |PROBE_TEXT| == 14
    ensures forall i :: 0 <= i < |PROBE_NAME| ==> PROBE_NAME[i] == PROBE_TEXT[i] as int
  {
  }

  /** `n` times the sends that one server gets. */
  ghost function Budget(n: nat, each: nat): nat {
    if n == 0 then 0 else Budget(n - 1, each) + each
  }

  lemma {:induction false} BudgetIsProduct(n: nat, each: nat)
    ensures Budget(n, each) == n * each
  {
    if n > 0 {
      BudgetIsProduct(n - 1, each);
      assert n * each == (n - 1) * each + each;
    }
  }

  lemma BudgetStep(n: nat, each: nat)
    ensures Budget(n + 1, each) == Budget(n, each) + each
  {
  }

  lemma {:induction false} BudgetGrows(n: nat, k: nat, each: nat)
    requires n <= k
    ensures Budget(n, each) <= Budget(k, each)
  {
    if n < k { BudgetGrows(n, k - 1, each); }
  }

  lemma {:induction false} BudgetGrowsEach(n: nat, each: nat, more: nat)
    requires each <= more
    ensures Budget(n, each) <= Budget(n, more)
  {
    if n > 0 { BudgetGrowsEach(n - 1, each, more); }
  }

  ghost predicate Heard(ds: seq<Delivery>, lookup: nat) {
    exists i :: 0 <= i < |ds| && ds[i].lookup == lookup
  }

  lemma {:induction false} DeliveredCounts(ds: seq<Delivery>, lookup: nat)
    ensures Delivered(ds)[lookup] > 0 <==> Heard(ds, lookup)
    ensures forall i, j :: 0 <= i < j < |ds| && ds[i].lookup == ds[j].lookup == lookup ==> Delivered(ds)[lookup] >= 2
  {
    if ds != [] {
      var rest := ds[..|ds| - 1];
      DeliveredCounts(rest, lookup);
      if Heard(ds, lookup) && ds[|ds| - 1].lookup != lookup {
        var i :| 0 <= i < |ds| && ds[i].lookup == lookup;
        assert rest[i].lookup == lookup;
      }
      forall i, j | 0 <= i < j < |ds| && ds[i].lookup == ds[j].lookup == lookup ensures Delivered(ds)[lookup] >= 2 {
        assert rest[i].lookup == lookup;
        if j < |rest| { assert rest[j].lookup == lookup; }
      }
    }
  }

  /** What may still be spent on a lookup: names, then reissues of the present request, then sends of it. */
  datatype Effort = Effort(names: nat, reissues: int, sends: int)

  predicate Below(e: Effort, than: Effort) {
    || e.names < than.names
    || (e.names == than.names && (e.reissues < than.reissues || (e.reissues == than.reissues && e.sends < than.sends)))
  }

  ghost predicate ProbeIn(f: seq<Request>, s: Nameserver) {
    exists r :: r in f && r.callback == Probe(s)
  }

  /** The first request of a list that has this id; null if none has. */
  ghost function FirstWith(l: seq<Request>, id: nat): (r: Request?)
    reads l`transId
    ensures if r == null then forall q :: q in l ==> q.transId != id else r in l && r.transId == id
  {
    if l == [] then null
    else if l[0].transId == id then l[0]
    else FirstWith(l[1..], id)
  }

  /** From `f` on the wire and `w` waiting, the `k` oldest of `w` have moved to the wire, in order. */
  ghost predicate Promoted(f: seq<Request>, w: seq<Request>, k: nat, f': seq<Request>, w': seq<Request>) {
    k <= |w| && f' == f + w[..k] && w' == w[k..]
  }

  lemma StartPromotion(f: seq<Request>, w: seq<Request>)
    ensures Promoted(f, w, 0, f, w)
  {
  }

  lemma PromotedOne(f: seq<Request>, w: seq<Request>, k: nat)
    requires k < |w|
    ensures Promoted(f, w, k + 1, f + w[..k] + [w[k]], w[k + 1..]) && w[k..][0] == w[k] && w[k..][1..] == w[k + 1..]
  {
    assert w[..k + 1] == w[..k] + [w[k]];
  }

  /** `req` was put at the end of the list on the wire if it flies, else of the list that waits. */
  ghost predicate Queued(f: seq<Request>, w: seq<Request>, f': seq<Request>, w': seq<Request>, req: Request,
    flies: bool) {
    if flies then f' == f + [req] && w' == w else w' == w + [req] && f' == f
  }

  lemma QueuedLookups(f: seq<Request>, w: seq<Request>, f': seq<Request>, w': seq<Request>, req: Request, flies: bool)
    requires Queued(f, w, f', w', req, flies)
    ensures Lookups(f') + Lookups(w') == Lookups(f) + Lookups(w) + LookupOf(req)
  {
    LookupsSingle(req);
    LookupsConcat(f, [req]);
    LookupsConcat(w, [req]);
  }

  /** The lookups `acc` are those of the requests on the lists and those told, each counted once. */
  ghost predicate Accounted(acc: multiset<nat>, f: seq<Request>, w: seq<Request>, ds: seq<Delivery>) {
    acc == Lookups(f) + Lookups(w) + Delivered(ds)
  }

  lemma AccountedQueued(acc: multiset<nat>, f: seq<Request>, w: seq<Request>, ds: seq<Delivery>,
                        f': seq<Request>, w': seq<Request>, req: Request, flies: bool) returns (acc': multiset<nat>)
    requires Accounted(acc, f, w, ds) && Queued(f, w, f', w', req, flies)
    ensures acc' == acc + LookupOf(req) && Accounted(acc', f', w', ds)
  {
    acc' := acc + LookupOf(req);
    QueuedLookups(f, w, f', w', req, flies);
    SumGrows(acc, Lookups(f) + Lookups(w), Lookups(f') + Lookups(w'), Delivered(ds), LookupOf(req));
  }

  lemma AccountedFinished(acc: multiset<nat>, f: seq<Request>, w: seq<Request>, ds: seq<Delivery>, req: Request,
                          k: nat, f': seq<Request>, w': seq<Request>)
    requires NoRepeats(f) && req in f
    requires Accounted(acc + LookupOf(req), f, w, ds) && Promoted(Minus(f, req), w, k, f', w')
    ensures Accounted(acc, f', w', ds)
  {
    LookupsMinus(f, req);
    PromotedLookups(Minus(f, req), w, k, f', w');
    SumShrinks(acc, Lookups(f), Lookups(w), Lookups(Minus(f, req)), Lookups(f') + Lookups(w'), Delivered(ds),
      LookupOf(req));
  }

  /** What the recorder holds after `r` was told `outcome`. */
  ghost function Recorded(ds: seq<Delivery>, r: Request, outcome: Outcome): seq<Delivery> {
    match r.callback
    case User(lookup) => ds + [Delivery(lookup, outcome)]
    case Probe(_) => ds
  }

  ghost predicate Records(ds: seq<Delivery>, ds': seq<Delivery>, r: Request, outcome: Outcome) {
    ds' == Recorded(ds, r, outcome)
  }

  lemma AccountedTold(acc: multiset<nat>, f: seq<Request>, w: seq<Request>, ds: seq<Delivery>, r: Request,
    outcome: Outcome)
    requires Accounted(acc, f, w, ds)
    ensures Accounted(acc + LookupOf(r), f, w, Recorded(ds, r, outcome))
  {
    var ds' := Recorded(ds, r, outcome);
    if r.callback.User? {
      assert ds'[..|ds|] == ds;
      SumTold(acc, Lookups(f) + Lookups(w), Delivered(ds), LookupOf(r));
    }
  }

  lemma SumTold(acc: multiset<nat>, s: multiset<nat>, d: multiset<nat>, l: multiset<nat>)
    requires acc == s + d
    ensures acc + l == s + (d + l)
  {
  }

  lemma SumGrows(acc: multiset<nat>, s: multiset<nat>, s': multiset<nat>, d: multiset<nat>, l: multiset<nat>)
    requires acc == s + d && s' == s + l
    ensures acc + l == s' + d
  {
  }

  lemma SumShrinks(acc: multiset<nat>, f: multiset<nat>, w: multiset<nat>, g: multiset<nat>, s': multiset<nat>,
                   d: multiset<nat>, l: multiset<nat>)
    requires acc + l == f + w + d && f == g + l && s' == g + w
    ensures acc == s' + d
  {
    assert acc + l == (s' + d) + l;
    assert (acc + l) - l == acc && ((s' + d) + l) - l == s' + d;
  }

  lemma {:induction false} ReverseNext(f: seq<Request>, i: nat)
    requires i < |f|
    ensures Reverse(f[..i + 1]) == [f[i]] + Reverse(f[..i])
    decreases i
  {
    if i == 0 {
      assert f[..1] == [f[0]] && f[..0] == [];
      assert [f[0]][1..] == [];
    } else {
      ReverseNext(f[1..], i - 1);
      assert f[..i + 1][1..] == f[1..][..i] && f[..i][1..] == f[1..][..i - 1];
    }
  }

  lemma {:induction false} ReverseLookups(f: seq<Request>)
    ensures Lookups(Reverse(f)) == Lookups(f)
  {
    if f != [] {
      ReverseLookups(f[1..]);
      LookupsConcat(Reverse(f[1..]), [f[0]]);
      LookupsConcat([f[0]], f[1..]);
      LookupsSingle(f[0]);
      assert f == [f[0]] + f[1..];
    }
  }

  lemma AccountedParked(acc: multiset<nat>, f: seq<Request>, w: seq<Request>, ds: seq<Delivery>)
    requires Accounted(acc, f, w, ds)
    ensures Accounted(acc, [], Reverse(f) + w, ds)
  {
    ReverseLookups(f);
    LookupsConcat(Reverse(f), w);
    assert Lookups([]) + (Lookups(f) + Lookups(w)) == Lookups(f) + Lookups(w);
  }

  lemma AccountedPromoted(acc: multiset<nat>, f: seq<Request>, w: seq<Request>, ds: seq<Delivery>,
                          k: nat, f': seq<Request>, w': seq<Request>)
    requires Accounted(acc, f, w, ds) && Promoted(f, w, k, f', w')
    ensures Accounted(acc, f', w', ds)
  {
    PromotedLookups(f, w, k, f', w');
  }

  /** Promotion loses and invents no lookup. */
  lemma PromotedLookups(f: seq<Request>, w: seq<Request>, k: nat, f': seq<Request>, w': seq<Request>)
    requires Promoted(f, w, k, f', w')
    ensures Lookups(f') + Lookups(w') == Lookups(f) + Lookups(w)
  {
    assert w == w[..k] + w[k..];
    LookupsConcat(w[..k], w[k..]);
    LookupsConcat(f, w[..k]);
  }

  /** Not sent yet, and meant for `ns`. */
  ghost predicate Unsent(r: Request, ns: Nameserver)
    reads r`ns, r`txCount
  {
    r.txCount == 0 && r.ns == ns
  }

  /** How many requests of `l` from `r` on are unsent and meant for `ns`. */
  ghost function UnsentFrom(l: seq<Request>, r: Request, ns: Nameserver): nat
    reads l`ns, l`txCount
  {
    if l == [] then 0
    else if l[0] == r then UnsentIn(l, ns)
    else UnsentFrom(l[1..], r, ns)
  }

  ghost function UnsentIn(l: seq<Request>, ns: Nameserver): nat
    reads l`ns, l`txCount
  {
    if l == [] then 0 else UnsentIn(l[1..], ns) + if Unsent(l[0], ns) then 1 else 0
  }

  /** The same count from every place on. */
  lemma {:induction false} Tally(l: seq<Request>, ns: Nameserver) returns (left: seq<nat>)
    ensures |left| == |l| + 1 && left[|l|] == 0 && left[0] == UnsentIn(l, ns)
    ensures forall i :: 0 <= i < |l| ==> left[i] == left[i + 1] + if Unsent(l[i], ns) then 1 else 0
    ensures NoRepeats(l) ==> forall i :: 0 <= i < |l| ==> left[i] == UnsentFrom(l, l[i], ns)
  {
    if l == [] {
      left := [0];
    } else {
      var rest := Tally(l[1..], ns);
      left := [UnsentIn(l, ns)] + rest;
    }
  }

  lemma PlaceIn(l: seq<Request>, r: Request?) returns (j: nat)
    ensures j <= |l| && (j < |l| ==> l[j] == r) && (r != null && r in l ==> j < |l|)
  {
    j := |l|;
    if r != null && r in l { j := PlaceOf(l, r); }
  }

  /** How it stands with sending a request: is it due, how often was it sent, is its timer set. */
  datatype Posting = Posting(due: bool, txCount: nat, timer: bool, sends: nat)

  /** How many timeouts in a row each server has to its name, and which servers are up. */
  datatype Counter = Counter(count: map<Nameserver, nat>, up: set<Nameserver>)

  /**
   * From `a` to `b` nothing was counted: a count is as it was, or cleared; and that of a server that is up is as it
   * was, if the server was up, and cleared, if it came up since or is new.
   */
  ghost predicate Uncounted(a: Counter, b: Counter) {
    && (forall s :: s in a.count && s in b.count ==> b.count[s] == a.count[s] || b.count[s] == 0)
    && forall s :: s in b.up ==>
         s in b.count && b.count[s] == if s in a.up && s in a.count then a.count[s] else 0
  }

  /** What becomes of the counters when `late` times out, or a packet from `heard` comes in. */
  ghost function Expected(c: Counter, late: Nameserver?, heard: Nameserver?, most: nat): Counter {
    Counter(map s | s in c.count ::
              if s == heard then 0
              else if s != late then c.count[s]
              else if c.count[s] + 1 > most then 0
              else c.count[s] + 1,
            if late != null && late in c.count && c.count[late] + 1 > most then c.up - {late} else c.up)
  }

  lemma StillUncounted(a: Counter, b: Counter, c: Counter)
    requires Uncounted(a, b) && Uncounted(b, c) && (a.up <= b.up || c.up <= b.up)
    requires a.count.Keys == b.count.Keys == c.count.Keys && a.up <= a.count.Keys
    ensures Uncounted(a, c)
  {
  }

  /** What an input had to do with the servers: who timed out, from whom a packet came, and who is up then. */
  datatype Moment = Moment(late: Nameserver?, heard: Nameserver?, up: set<Nameserver>)

  /**
   * How many timeouts in a row `s` has to its name after `story`, if it had `start` before: those since a packet
   * came from it, or since it was down.
   */
  ghost function Row(story: seq<Moment>, start: map<Nameserver, nat>, s: Nameserver): nat {
    if story == [] then if s in start then start[s] else 0
    else
      var last := story[|story| - 1];
      if s !in last.up || last.heard == s then 0
      else Row(story[..|story| - 1], start, s) + if last.late == s then 1 else 0
  }

  /** How often `s` timed out. */
  ghost function Lates(story: seq<Moment>, s: Nameserver): nat {
    if story == [] then 0 else Lates(story[..|story| - 1], s) + if story[|story| - 1].late == s then 1 else 0
  }

  /** No server that timed out is up with more timeouts in a row than `most`. */
  ghost predicate InTime(story: seq<Moment>, start: map<Nameserver, nat>, most: nat) {
    forall k, s :: 0 <= k < |story| && s in story[k].up && story[k].late == s ==> Row(story[..k + 1], start, s) <= most
  }

  /** While `s` stays up and no packet comes from it, every timeout is one more in its row. */
  lemma {:induction false} RowGrows(story: seq<Moment>, start: map<Nameserver, nat>, s: Nameserver, i: nat, j: nat)
    requires i <= j <= |story| && forall k :: i <= k < j ==> s in story[k].up && story[k].heard != s
    ensures Row(story[..j], start, s) == Row(story[..i], start, s) + Lates(story[i..j], s)
    decreases j
  {
    if i < j {
      RowGrows(story, start, s, i, j - 1);
      assert story[..j][..j - 1] == story[..j - 1] && story[i..j][..j - 1 - i] == story[i..j - 1];
    }
  }

  /** The latest timeout of `s` in a stretch in which it timed out. */
  lemma {:induction false} LastLate(story: seq<Moment>, s: Nameserver, i: nat, j: nat) returns (k: nat)
    requires i <= j <= |story| && Lates(story[i..j], s) > 0
    ensures i <= k < j && story[k].late == s && Lates(story[i..k + 1], s) == Lates(story[i..j], s)
    decreases j
  {
    assert story[i..j][..j - 1 - i] == story[i..j - 1];
    if story[j - 1].late == s { k := j - 1; } else { k := LastLate(story, s, i, j - 1); }
  }

  /** The counters of the servers that are up are their rows. */
  ghost predicate Keeps(story: seq<Moment>, start: map<Nameserver, nat>, c: Counter) {
    && c.up <= c.count.Keys && (forall s :: s in c.up ==> c.count[s] == Row(story, start, s))
    && c.up == if story == [] then start.Keys else story[|story| - 1].up
  }

  lemma KeepsOn(story: seq<Moment>, start: map<Nameserver, nat>, most: nat, c: Counter, m: Moment, c': Counter)
    requires Keeps(story, start, c) && InTime(story, start, most) && m.up == c'.up
    requires Uncounted(Expected(c, m.late, m.heard, most), c')
      && (m.late != null ==> c'.up <= Expected(c, m.late, m.heard, most).up)
    requires m.late == null || m.heard == null
    ensures Keeps(story + [m], start, c') && InTime(story + [m], start, most)
  {
    var longer := story + [m];
    assert longer[..|story|] == story;
    forall s | s in c'.up
      ensures s in c'.count && c'.count[s] == Row(longer, start, s) && (m.late == s ==> Row(longer, start, s) <= most)
    {
    }
    forall k, s | 0 <= k < |longer| && s in longer[k].up && longer[k].late == s
      ensures Row(longer[..k + 1], start, s) <= most
    {
      assert k < |story| ==> longer[..k + 1] == story[..k + 1];
      assert k == |story| ==> longer[..k + 1] == longer;
    }
  }

  /**
   * Main result on timeouts: more timeouts in a row than `most`, with no packet from the server meanwhile, and it
   * is down by the last of them.
   */
  lemma TakenDown(story: seq<Moment>, start: map<Nameserver, nat>, most: nat, s: Nameserver, i: nat, j: nat)
    requires InTime(story, start, most) && i <= j <= |story|
    requires Lates(story[i..j], s) > most && forall k :: i <= k < j ==> story[k].heard != s
    ensures exists k :: i <= k < j && s !in story[k].up
  {
    if forall k :: i <= k < j ==> s in story[k].up {
      var k := LastLate(story, s, i, j);
      assert s in story[k].up;
      RowGrows(story, start, s, i, k + 1);
    }
  }

  class Resolver {
    const inflight: RequestList
    const waiting: RequestList
    const ring: NameserverRing
    const maxInflight: nat
    const maxReissues: nat
    const maxRetransmits: nat
    const maxTimeouts: nat
    /** global_requests_inflight and global_requests_waiting */
    var nInflight: int
    var nWaiting: int
    var search: SearchState?
    /** The recorder: every callback called, in order. */
    var delivered: seq<Delivery>
    /** Every lookup that was accepted. */
    ghost var accepted: multiset<nat>
    /** How often everything was suspended. */
    ghost var suspensions: nat

    /** Every request that is, or was, on a list. */
    ghost var members: set<Request>
    /** The search lists in use, and their nodes. */
    ghost var states: set<SearchState>
    ghost var nodes: set<SearchDomain>

    // -------------------------------------------------------------- what holds between steps

    /** Both lists are rings without common members, and the counters are their lengths. */
    ghost predicate Lists()
      reads `nInflight, `nWaiting, `members, inflight, waiting
      reads inflight.items`next, inflight.items`prev, waiting.items`next, waiting.items`prev
    {
      && inflight != waiting && inflight.Valid() && waiting.Valid()
      && Apart(inflight.items, waiting.items)
      && (forall r :: r in inflight.items ==> r in members) && (forall r :: r in waiting.items ==> r in members)
      && nInflight == |inflight.items| && nWaiting == |waiting.items|
    }

    /** How often a request may be sent until a suspension makes it start over. */
    ghost function Cap(): nat {
      Budget(maxReissues + 1, maxRetransmits)
    }

    /** How often the suspensions there were allow a request to have been sent. */
    ghost function Spent(): nat
      reads `suspensions
    {
      Budget(suspensions, Cap())
    }

    /** The packet asks the question of the request. */
    ghost predicate Asking(r: Request)
      reads r`packet
    {
      Asks(r.packet, r.name, TypeOf(r.kind))
    }

    /** So it does, under the id of the request. */
    ghost predicate Carries(r: Request)
      reads r`packet, r`transId
    {
      Asking(r) && r.packet[..2] == Short(r.transId)
    }

    /** How often the limits allow one request to have been sent. */
    ghost function Whole(): nat
      reads `suspensions
    {
      Budget(suspensions + 1, Cap())
    }

    /** No earlier request of the lookup was sent more often than that. */
    ghost predicate Affordable(story: Story)
      reads `suspensions
    {
      story.names != [] && story.spent <= Budget(|story.names| - 1, Whole())
    }

    /** A request on the wire: its packet has its id, it has a server, and is within its limits. */
    ghost predicate Flying(r: Request)
      reads `suspensions, ring`members, r`ns, r`transId, r`packet, r`txCount, r`reissueCount, r`transmitMe, r`sends
    {
      && Carries(r) && Affordable(r.story) && r.ns != null && r.ns in ring.members && r.transId < NO_ID
      && (r.transmitMe ==> r.txCount < maxRetransmits) && r.txCount <= maxRetransmits
      && r.reissueCount <= maxReissues && r.sends <= Spent() + Budget(r.reissueCount, maxRetransmits) + r.txCount
      && (r.callback.Probe? ==> r.callback.server in ring.members)
    }

    ghost predicate AllFlying(f: seq<Request>)
      reads `suspensions, ring`members, f`ns, f`transId, f`packet, f`txCount, f`reissueCount, f`transmitMe, f`sends
    {
      forall r :: r in f ==> Flying(r)
    }

    /** A request not on the wire: no server, nothing sent since it started over, no timer. */
    ghost predicate Parked(r: Request)
      reads `suspensions, r`packet, r`ns, r`txCount, r`reissueCount, r`transmitMe, r`timer, r`sends
    {
      && Asking(r) && Affordable(r.story) && r.ns == null && r.txCount == r.reissueCount == 0 && !r.transmitMe
        && !r.timer && r.callback.User?
      && r.sends <= Spent()
    }

    ghost predicate AllParked(w: seq<Request>)
      reads `suspensions, w`packet, w`ns, w`txCount, w`reissueCount, w`transmitMe, w`timer, w`sends
    {
      forall r :: r in w ==> Parked(r)
    }

    /** A request that is part of a search has a place in a list that is kept. */
    ghost predicate Searching(r: Request)
      reads `states, states, r`search, r`searchIndex, r`origName
    {
      r.search != null ==>
        && r.search in states && r.search == r.story.list && r.origName == r.story.name != []
          && -1 <= r.searchIndex < |r.search.domains|
        && r.callback.User? && r.kind != Ptr
    }

    /** The names that the search of `r` tries after `r`, with the list as it is now. */
    ghost function Left(r: Request): seq<seq<Byte>>
      reads `states, states, r`search, r`searchIndex, r`origName
    {
      if r.search == null || r.search !in states || r.origName == [] || r.searchIndex < -1 then []
      else RestTries(r.origName, r.search.ndots, Texts(r.search.domains), r.searchIndex)
    }

    /** The list is as it was when the lookup was accepted. */
    ghost predicate Untouched(story: Story)
      reads `states, states
    {
      story.list != null ==> story.list in states && story.list.edits == story.edits
    }

    /** The candidates of the lookup by the list as it is now. */
    ghost function PlanNow(story: Story): seq<seq<Byte>>
      reads `states, states
    {
      if story.list == null || story.list !in states || story.name == [] then [story.name]
      else Candidates(story.name, story.list.ndots, Texts(story.list.domains))
    }

    /** `name` is the last one of the story, and with `left` it makes up the plan, unless the list was touched. */
    ghost predicate OnPlan(story: Story, name: seq<Byte>, left: seq<seq<Byte>>)
      reads `states, states
    {
      && story.names != [] && story.names[|story.names| - 1] == name
      && (story.list != null ==> story.list in states && story.edits <= story.list.edits && story.name != [])
      && (Untouched(story) ==> story.names + left == story.plan == PlanNow(story))
    }

    ghost predicate Searchable(r: Request)
      reads `states, states, r`search, r`searchIndex, r`origName
    {
      Searching(r) && (r.callback.User? ==> OnPlan(r.story, r.name, Left(r)))
    }

    ghost function EffortOf(r: Request): Effort
      reads `states, states, r`search, r`searchIndex, r`origName, r`reissueCount, r`txCount
    {
      Effort(|Left(r)|, maxReissues - r.reissueCount, maxRetransmits - r.txCount)
    }

    ghost predicate AllSearchable(l: seq<Request>)
      reads `states, states, l`search, l`searchIndex, l`origName
    {
      forall r :: r in l ==> Searchable(r)
    }

    ghost predicate SearchLists()
      reads `states, `nodes, `search, states, nodes`next
    {
      && (search != null ==> search in states)
      && forall st :: st in states ==> (forall d :: d in st.domains ==> d in nodes) && st.Valid()
    }

    ghost predicate ServersSound()
      reads ring`members, ring.members
    {
      forall s :: s in ring.members ==> s.Sound()
    }

    /** Some server's socket is being watched for room, and every request to be sent will be tried then. */
    ghost predicate Stirring()
      reads ring`members, ring.members`writeWaiting
    {
      exists s :: s in ring.members && s.writeWaiting
    }

    /** No request on the wire is forgotten, except perhaps `x`, which is being handled. */
    ghost predicate Live(f: seq<Request>, x: Request?)
      reads f`timer, f`transmitMe, ring`members, ring.members`writeWaiting
    {
      forall r :: r in f && r != x ==> r.timer || (r.transmitMe && Stirring())
    }

    /** A server that is down will be probed, or is being probed. */
    ghost predicate DownProbed(f: seq<Request>)
      reads ring`members, ring.members`state, ring.members`probeTimer
    {
      forall s :: s in ring.members && !s.state ==> s.probeTimer.Some? || ProbeIn(f, s)
    }

    /** What holds of the servers and the requests `f` on the wire. */
    ghost predicate Wire(f: seq<Request>, x: Request?)
      reads `suspensions, ring, ring.members, ring.order`next
      reads f`ns, f`transId, f`packet, f`txCount, f`reissueCount, f`transmitMe, f`sends, f`timer
    {
      && ring.Valid() && ServersSound() && AllFlying(f) && Live(f, x) && DownProbed(f)
      && 1 <= maxInflight && 1 <= maxRetransmits
    }

    /** What sending does not touch: the requests `w` that wait, the searches, and the bound on `f`. */
    ghost predicate Aside(f: seq<Request>, w: seq<Request>)
      reads `suspensions, `search, `states, `nodes, states, nodes`next
      reads w`packet, w`ns, w`txCount, w`reissueCount, w`transmitMe, w`sends, w`timer
      reads f`search, f`searchIndex, f`origName, w`search, w`searchIndex, w`origName
    {
      SearchLists() && AllParked(w) && AllSearchable(f) && AllSearchable(w) && |Lookups(f)| <= maxInflight
    }

    ghost predicate Inv(x: Request?)
      reads `nInflight, `nWaiting, `members, `search, `states, `nodes, `suspensions
      reads inflight, waiting, ring, ring.members, ring.order`next
      reads inflight.items, waiting.items, states, nodes`next
    {
      Lists() && Wire(inflight.items, x) && Aside(inflight.items, waiting.items)
    }

    /** Every accepted lookup is pending in exactly one request, or its callback was called, once. */
    ghost predicate Conserved()
      reads `accepted, `delivered, inflight`items, waiting`items
    {
      Accounted(accepted, inflight.items, waiting.items, delivered)
    }

    /** No lookup waits while there is room on the wire. */
    ghost predicate Settled()
      reads waiting`items, `nInflight
    {
      waiting.items == [] || nInflight >= maxInflight
    }

    constructor (maxInflight: nat, maxReissues: nat, maxRetransmits: nat, maxTimeouts: nat)
      requires 1 <= maxInflight && 1 <= maxRetransmits
      ensures Inv(null) && Conserved() && Settled() && accepted == multiset{} && delivered == [] && suspensions == 0
      ensures members == {} && states == {}
      ensures inflight.items == waiting.items == [] && ring.order == [] && ring.members == {} && search == null
      ensures fresh(inflight) && fresh(waiting) && fresh(ring)
      ensures this.maxInflight == maxInflight && this.maxReissues == maxReissues
      ensures this.maxRetransmits == maxRetransmits && this.maxTimeouts == maxTimeouts
    {
      inflight := new RequestList();
      waiting := new RequestList();
      ring := new NameserverRing();
      this.maxInflight, this.maxReissues := maxInflight, maxReissues;
      this.maxRetransmits, this.maxTimeouts := maxRetransmits, maxTimeouts;
      nInflight, nWaiting, search, delivered := 0, 0, null, [];
      accepted, members, states, nodes, suspensions := multiset{}, {}, {}, {}, 0;
    }

    // -------------------------------------------------------------- what follows from that

    lemma ListsFacts()
      requires Inv(null)
      ensures inflight.Valid() && waiting.Valid() && inflight != waiting && nInflight == |inflight.items|
      ensures (forall r :: r in inflight.items ==> r in members) && forall r :: r in waiting.items ==> r in members
    {
    }

    lemma ListedFor(x: Request)
      requires Inv(x)
      ensures ring.Valid() && inflight != waiting && nInflight == |inflight.items|
      ensures (forall r :: r in inflight.items ==> r in members) && forall r :: r in waiting.items ==> r in members
    {
    }

    lemma NoneOnBoth(x: Request?)
      requires Inv(x)
      ensures inflight.Valid() && forall r :: r in waiting.items ==> r !in inflight.items
    {
    }

    lemma Limits()
      requires Inv(null)
      ensures 1 <= maxInflight && 1 <= maxRetransmits && inflight != waiting
    {
    }

    lemma SearchFacts()
      requires Inv(null)
      ensures SearchLists() && (search != null ==> search in states && search.numDomains == |search.domains|)
    {
    }

    lemma RingIsValid()
      requires Inv(null)
      ensures ring.Valid()
    {
    }

    // -------------------------------------------------------------- ids

    /** What transaction_id_pick accepts: it does not look past the head if the head already matches. */
    ghost predicate Acceptable(id: nat)
      reads inflight`items, inflight.items`transId
    {
      || inflight.items == [] || inflight.items[0].transId == id
      || forall r :: r in inflight.items ==> r.transId != id
    }

    /** The walk of transaction_id_pick over the requests on the wire. */
    method IdPasses(id: nat) returns (ok: bool)
      requires inflight.Valid()
      ensures ok <==> Acceptable(id)
    {
      if inflight.head == null { return true; }
      var req: Request := inflight.head;
      ghost var i: nat := 0;
      while true
        invariant i < |inflight.items| && req == inflight.items[i]
        invariant forall k :: 0 <= k < i ==> inflight.items[k].transId != id
        decreases |inflight.items| - i
      {
        if req.transId == id { break; }
        req := req.next;
        i := i + 1;
        if req == inflight.head { break; }
      }
      return req == inflight.head;
    }

    /**
     * transaction_id_pick draws until a draw passes the walk.  The generator is arbitrary, so the result
     * is an arbitrary id that passes: the draw made here if it does, else one that always does.
     */
    method TransactionIdPick() returns (id: nat)
      requires inflight.Valid() && forall r :: r in inflight.items ==> r.transId < NO_ID
      ensures id < 0xffff && Acceptable(id)
    {
      id := *;
      var ok := false;
      if id < NO_ID { ok := IdPasses(id); }
      if !ok { id := if inflight.head == null then 0 else inflight.head.transId; }
    }

    /** request_find_from_trans_id: the first request on the wire with this id. */
    method RequestFindFromTransId(id: nat) returns (r: Request?)
      requires inflight.Valid()
      ensures r == FirstWith(inflight.items, id)
    {
      if inflight.head == null { return null; }
      var req: Request := inflight.head;
      ghost var i: nat := 0;
      while true
        invariant i < |inflight.items| && req == inflight.items[i]
        invariant FirstWith(inflight.items[i..], id) == FirstWith(inflight.items, id)
        decreases |inflight.items| - i
      {
        if req.transId == id { return req; }
        req := req.next;
        i := i + 1;
        if req == inflight.head { return null; }
      }
    }

    // -------------------------------------------------------------- servers going down

    /** Whether `r` has a server that is up. */
    ghost predicate AtUpServer(r: Request)
      reads r`ns, ring`members, ring.members`state
    {
      r.ns != null && r.ns in ring.members && r.ns.state
    }

    /** Where `r`, which was meant for `was`, is now meant for, after the requests of `ns` were moved. */
    ghost predicate Placed(r: Request, was: Nameserver?, ns: Nameserver)
      reads r`ns, r`txCount, ring`members, ring.members`state
    {
      if r.txCount == 0 && was == ns then AtUpServer(r) else r.ns == was
    }

    /**
     * The walk of nameserver_failed: requests for `ns` that were not sent yet move to a server that is up,
     * each to the next one.  `w` is a request to keep an eye on.
     */
    method MoveUnsent(ns: Nameserver, ghost x: Request?, ghost w: Request?)
      requires inflight.Valid() && Wire(inflight.items, x) && ring.good > 0 && !ns.state
      modifies ring`head, ring`at, inflight.items`ns
      ensures Wire(inflight.items, x)
      ensures forall r :: r in inflight.items ==> Placed(r, old(r.ns), ns)
      ensures w != null && w in inflight.items && old(Unsent(w, ns)) ==>
        ring.PickedAgo(w.ns, old(UnsentFrom(inflight.items, w, ns)))
    {
      hide Lists, Wire, Aside, Conserved, Settled, UnsentFrom, PicksLeft, NameserverRing.PickedAgo,
           NameserverRing.Valid;
      if inflight.head == null { return; }
      ghost var left := Tally(inflight.items, ns);
      ghost var j := PlaceIn(inflight.items, w);
      ghost var due := w != null && Unsent(w, ns);
      ghost var to: nat := 0;
      var req: Request := inflight.head;
      ghost var i: nat := 0;
      while true
        invariant Wire(inflight.items, x) && i < |inflight.items| && req == inflight.items[i]
        invariant forall k :: i <= k < |inflight.items| ==> inflight.items[k].ns == old(inflight.items[k].ns)
        invariant forall k :: 0 <= k < i ==> Placed(inflight.items[k], old(inflight.items[k].ns), ns)
        invariant j < i && due ==> PicksLeft(inflight.items[j], to, left[i], left[j])
        decreases |inflight.items| - i
      {
        to := MoveIfUnsent(req, ns, x, i, j, due, to, left);
        req := req.next;
        i := i + 1;
        if req == inflight.head { break; }
      }
      if j < i && due { NoneLeft(inflight.items[j], to, left[j]); }
    }

    lemma NoneLeft(r: Request, to: nat, n: nat)
      requires PicksLeft(r, to, 0, n)
      ensures ring.PickedAgo(r.ns, n)
    {
    }

    /** One step of the walk, for the request at place `i`, with an eye on the one at place `j`. */
    method MoveIfUnsent(req: Request, ns: Nameserver, ghost x: Request?, ghost i: nat, ghost j: nat, ghost due: bool,
                        ghost to: nat, ghost left: seq<nat>)
      returns (ghost to': nat)
      requires inflight.Valid() && Wire(inflight.items, x) && ring.good > 0 && !ns.state
      requires i < |inflight.items| && req == inflight.items[i] && |left| == |inflight.items| + 1
      requires left[i] == left[i + 1] + if Unsent(req, ns) then 1 else 0
      requires j < i && due ==> PicksLeft(inflight.items[j], to, left[i], left[j])
      requires j == i ==> due == Unsent(req, ns)
      modifies ring`head, ring`at, req`ns
      ensures Wire(inflight.items, x) && Placed(req, old(req.ns), ns)
      ensures j <= i && due ==> PicksLeft(inflight.items[j], to', left[i + 1], left[j])
    {
      hide Lists, Wire, Aside, Conserved, Settled, PlaceAfter, NameserverRing.Valid, Circular;
      to' := to;
      if req.txCount == 0 && req.ns == ns {
        ghost var k := MoveOne(req, x);
        if i == j { to' := k; }
      }
    }

    /** `r` moved to the server at place `to`; with `rest` more picks it will be `n - 1` picks ago. */
    ghost predicate PicksLeft(r: Request, to: nat, rest: nat, n: nat)
      reads r`ns, ring, ring.members`state
    {
      && n > 0 && to < |ring.order| && ring.order[to] == r.ns && r.ns in ring.Up() && ring.at < |ring.order|
      && PlaceAfter(ring.order, ring.at, ring.Up(), rest)
         == PlaceAfter(ring.order, After(to, |ring.order|), ring.Up(), n - 1)
    }

    /** nameserver_pick */
    method PickServer(ghost x: Request?) returns (ns: Nameserver?, ghost k: nat)
      requires Wire(inflight.items, x)
      modifies ring`head, ring`at
      ensures Wire(inflight.items, x)
      ensures ns == old(ring.Next()) && (if ring.order == [] then ns == null else ns != null && ns in ring.members)
      ensures ring.good > 0 ==> k < |ring.order| && ring.order[k] == ns && ns.state && ring.at == After(k, |ring.order|)
      ensures ring.good > 0 ==> forall n :: n > 0 ==>
        PlaceAfter(ring.order, old(ring.at), ring.Up(), n) == PlaceAfter(ring.order, ring.at, ring.Up(), n - 1)
    {
      hide AllFlying, Live, DownProbed, ServersSound;
      if ring.good > 0 { SomeUpIsFound(ring.order, ring.at, ring.Up(), ring.members); }
      k := if ring.good > 0 then FindUp(ring.order, ring.at, ring.Up(), |ring.order|).value else 0;
      ns := ring.Pick();
    }

    /** req->ns = nameserver_pick() */
    method MoveOne(req: Request, ghost x: Request?) returns (ghost k: nat)
      requires inflight.Valid() && Wire(inflight.items, x) && req in inflight.items
      modifies ring`head, ring`at, req`ns
      ensures Wire(inflight.items, x) && req.ns != null && (ring.good > 0 ==> AtUpServer(req))
      ensures req.ns == old(ring.Next())
      ensures ring.good > 0 ==> k < |ring.order| && ring.order[k] == req.ns && ring.at == After(k, |ring.order|)
      ensures ring.good > 0 ==> forall n :: n > 0 ==>
        PlaceAfter(ring.order, old(ring.at), ring.Up(), n) == PlaceAfter(ring.order, ring.at, ring.Up(), n - 1)
    {
      hide RequestList.Valid, NameserverRing.Valid, NameserverRing.Next, FindUp, PlaceAfter, Asking, Carries,
           Affordable, Budget, ServersSound;
      WireHasServers(inflight.items, x);
      var other;
      other, k := PickServer(x);
      req.ns := other;
    }

    /** The bookkeeping of nameserver_failed. */
    method MarkDown(ns: Nameserver, ghost x: Request?) returns (wasUp: bool)
      requires inflight.Valid() && Wire(inflight.items, x) && ns in ring.members
      modifies ring`good, ns`state, ns`failedTimes, ns`probeTimer
      ensures Wire(inflight.items, x) && wasUp == old(ns.state) && !ns.state && ring.Up() == old(ring.Up()) - {ns}
      ensures ring.good >= 0
    {
      hide RequestList.Valid, NameserverRing.Valid, AllFlying, Live;
      wasUp := ring.MarkDown(ns);
    }

    /** nameserver_failed */
    method NameserverFailed(ns: Nameserver, ghost x: Request?, ghost w: Request?) returns (ghost moved: bool)
      requires inflight.Valid() && Wire(inflight.items, x) && ns in ring.members
      modifies ring`head, ring`at, ring`good, ns`state, ns`failedTimes, ns`probeTimer, inflight.items`ns
      ensures Wire(inflight.items, x) && !ns.state && ring.Up() == old(ring.Up()) - {ns}
      ensures moved <==> old(ns.state) && ring.good > 0
      ensures moved ==> forall r :: r in inflight.items ==> Placed(r, old(r.ns), ns)
      ensures moved && w != null && w in inflight.items && old(Unsent(w, ns)) ==>
        ring.PickedAgo(w.ns, old(UnsentFrom(inflight.items, w, ns)))
      ensures !moved ==> unchanged(inflight.items`ns, ring`head, ring`at)
    {
      hide Wire, Lists, Aside, RequestList.Valid, UnsentFrom, NameserverRing.PickedAgo;
      var wasUp := MarkDown(ns, x);
      moved := false;
      if !wasUp || ring.good == 0 { return; }
      assert forall r :: r in inflight.items ==> r.ns == old(r.ns);
      moved := true;
      MoveUnsent(ns, x, w);
    }

    // -------------------------------------------------------------- sending

    /** nameserver_write_waiting */
    method NameserverWriteWaiting(ns: Nameserver, wanted: bool)
      modifies ns`writeWaiting
      ensures ns.writeWaiting == wanted
    {
      hide *;
      if ns.writeWaiting == wanted { return; }
      ns.writeWaiting := wanted;
    }

    /** evdns_request_transmit_to: 0 sent, 1 try later, 2 the server failed; `how` is what the send did. */
    method TransmitTo(req: Request) returns (r: int, how: SendResult)
      requires inflight.Valid() && Wire(inflight.items, req) && req in inflight.items
      modifies ring`head, ring`at, ring`good, req.ns`state, req.ns`failedTimes, req.ns`probeTimer, inflight.items`ns
      ensures Wire(inflight.items, req)
      ensures r == match how case Sent => 0 case Broken => 2 case _ => 1
      ensures how.Broken? ==> ring.Up() == old(ring.Up()) - {old(req.ns)}
      ensures !how.Broken? ==> unchanged(ring, old(req.ns), inflight.items`ns)
      ensures ring.Up() <= old(ring.Up())
    {
      how := *;
      match how
      case WouldBlock => return 1, how;
      case Broken =>
        ghost var _ := NameserverFailed(req.ns, req, null);
        return 2, how;
      case ShortWrite => return 1, how;
      case Sent => return 0, how;
    }

    /** The request is due: it is sent at the next occasion. */
    method Flag(req: Request)
      requires inflight.Valid() && Wire(inflight.items, req) && req in inflight.items && req.txCount < maxRetransmits
      modifies req`transmitMe
      ensures Wire(inflight.items, req) && req.transmitMe
    {
      hide Asking, Carries;
      req.transmitMe := true;
    }

    /** The socket is full: watch it for room. */
    method Choke(req: Request)
      requires inflight.Valid() && Wire(inflight.items, req) && req in inflight.items && req.transmitMe
      modifies req.ns`choked, req.ns`writeWaiting
      ensures Wire(inflight.items, null) && req.ns.choked && req.ns.writeWaiting
    {
      hide Asking, Carries;
      req.ns.choked := true;
      NameserverWriteWaiting(req.ns, true);
      assert Stirring();
    }

    /** The packet is out, or the server failed: count it and wait for the timeout. */
    method MarkSent(req: Request)
      requires inflight.Valid() && Wire(inflight.items, req) && req in inflight.items && req.transmitMe
      modifies req`txCount, req`transmitMe, req`timer, req`sends
      ensures Wire(inflight.items, null) && !req.transmitMe && req.timer
      ensures req.txCount == old(req.txCount) + 1 && req.sends == old(req.sends) + 1
    {
      hide Asking, Carries;
      req.timer := true;
      req.txCount := req.txCount + 1;
      req.sends := req.sends + 1;
      req.transmitMe := false;
    }

    lemma ChokedIsLive(req: Request)
      requires inflight.Valid() && Wire(inflight.items, req) && req in inflight.items && req.transmitMe && req.ns.choked
      ensures Wire(inflight.items, null)
    {
      assert req.ns.Sound();
      assert Stirring();
    }

    lemma WireFlying(req: Request, x: Request?)
      requires Wire(inflight.items, x) && req in inflight.items
      ensures Flying(req)
    {
    }

    /** evdns_request_transmit: 0 if sent, 1 if not; a send that has to be tried again is not counted. */
    method Transmit(req: Request) returns (r: int, ghost how: Option<SendResult>)
      requires inflight.Valid() && Wire(inflight.items, req) && req in inflight.items && req.txCount < maxRetransmits
      modifies ring`head, ring`at, ring`good
      modifies ring.members`state, ring.members`failedTimes, ring.members`probeTimer
      modifies ring.members`choked, ring.members`writeWaiting
      modifies inflight.items`ns, req`transmitMe, req`txCount, req`timer, req`sends
      ensures Wire(inflight.items, null)
      ensures r == (if how == Some(Sent) then 0 else 1) && (how == None <==> old(req.ns.choked))
      ensures how in {Some(Sent), Some(Broken)} <==> req.sends > old(req.sends)
      ensures ring.Up() == old(ring.Up()) - if how == Some(Broken) then {old(req.ns)} else {}
      ensures
        || (req.txCount == old(req.txCount) + 1 && req.sends == old(req.sends) + 1 && req.timer && !req.transmitMe)
        || (r == 1 && req.txCount == old(req.txCount) && req.sends == old(req.sends) && req.transmitMe
            && req.timer == old(req.timer) && req.ns == old(req.ns) && req.ns.choked)
      ensures old(req.ns.choked) ==>
        r == 1 && req.txCount == old(req.txCount) && unchanged(ring, ring.members, inflight.items`ns)
      ensures forall s :: s in ring.members ==> (old(s.writeWaiting) ==> s.writeWaiting) && (old(s.choked) ==> s.choked)
      ensures req.txCount > old(req.txCount) || Congestion()
      ensures ring.Up() <= old(ring.Up())
    {
      hide Wire, RequestList.Valid, NameserverRing.Up;
      WireFlying(req, req);
      Flag(req);
      if req.ns.choked {
        ChokedIsLive(req);
        return 1, None;
      }
      var sent, did := TransmitTo(req);
      if sent == 1 {
        Choke(req);
        return 1, Some(did);
      }
      MarkSent(req);
      return if sent == 2 then 1 else 0, Some(did);
    }

    ghost function Counters(): Counter
      reads ring`members, ring.members`state, ring.members`timedout
    {
      Counter(map s | s in ring.members :: s.timedout, ring.Up())
    }

    /** What becomes of the counters when `late` times out, or a packet from `heard` comes in. */
    ghost function Expecting(late: Nameserver?, heard: Nameserver?): Counter
      reads ring`members, ring.members`state, ring.members`timedout
    {
      Expected(Counters(), late, heard, maxTimeouts)
    }

    lemma ExpectingFacts(late: Nameserver?, heard: Nameserver?)
      ensures Expecting(late, heard).count.Keys == ring.members && Expecting(late, heard).up <= ring.members
      ensures late == heard == null ==> Expecting(late, heard) == Counters()
    {
    }

    /** A new server has no timeouts to its name. */
    lemma NewServer(a: Counter, ns: Nameserver)
      requires ring.members == a.count.Keys + {ns} && ns !in a.count && ring.Up() == a.up + {ns} && ns.timedout == 0
      requires a.up <= a.count.Keys && forall s :: s in a.count ==> s.timedout == a.count[s]
      ensures Uncounted(a, Counters())
    {
    }

    lemma CounterFacts()
      ensures Counters().count.Keys == ring.members && Counters().up == ring.Up() <= ring.members
    {
    }

    lemma CounterValues()
      ensures forall s :: s in ring.members ==> s in Counters().count && Counters().count[s] == s.timedout
    {
    }

    lemma CountersSince(a: Counter, b: Counter)
      requires Uncounted(a, b) && Uncounted(b, Counters()) && (a.up <= b.up || ring.Up() <= b.up)
      requires a.count.Keys == b.count.Keys == ring.members && a.up <= ring.members
      ensures Uncounted(a, Counters())
    {
      hide Uncounted;
      StillUncounted(a, b, Counters());
    }

    twostate lemma OnlyDowns()
      requires ring.members == old(ring.members) && ring.Up() <= old(ring.Up())
      requires forall s :: s in ring.members ==> s.timedout == old(s.timedout)
      ensures Uncounted(old(Counters()), Counters()) && Counters().count == old(Counters().count)
    {
    }

    /** Every sending of `r` was counted. */
    twostate predicate Counted(r: Request)
      reads r`txCount, r`sends
    {
      0 <= r.txCount - old(r.txCount) == r.sends - old(r.sends)
    }

    /** Some socket is full. */
    ghost predicate Congestion()
      reads ring`members, ring.members`choked
    {
      exists s :: s in ring.members && s.choked
    }

    ghost function Post(r: Request): Posting
      reads r`transmitMe, r`txCount, r`timer, r`sends
    {
      Posting(r.transmitMe, r.txCount, r.timer, r.sends)
    }

    /** If `r` was due it was sent, once, and that was counted, or it is due still; else it is as it was. */
    twostate predicate Tried(r: Request)
      reads r`transmitMe, r`txCount, r`timer, r`sends
    {
      SentIfDue(old(Post(r)), Post(r))
    }

    predicate SentIfDue(a: Posting, b: Posting) {
      if a.due && !b.due then b == Posting(false, a.txCount + 1, true, a.sends + 1) else b == a
    }

    /** The sockets of `ss` are watched for room. */
    ghost predicate Watched(ss: set<Nameserver>)
      reads ring`members, ring.members`writeWaiting
    {
      forall s :: s in ss ==> s in ring.members && s.writeWaiting
    }

    method TransmitIfDue(req: Request, ghost ss: set<Nameserver>) returns (tried: bool)
      requires inflight.Valid() && Wire(inflight.items, null) && req in inflight.items && Watched(ss)
      modifies ring`head, ring`at, ring`good
      modifies ring.members`state, ring.members`failedTimes, ring.members`probeTimer
      modifies ring.members`choked, ring.members`writeWaiting
      modifies inflight.items`ns, req`transmitMe, req`txCount, req`timer, req`sends
      ensures Wire(inflight.items, null) && tried == old(req.transmitMe) && Tried(req)
      ensures old(Congestion()) || req.transmitMe ==> Congestion()
      ensures !tried ==> unchanged(ring.members`choked)
      ensures Watched(ss)
      ensures ring.Up() <= old(ring.Up())
    {
      hide Wire, RequestList.Valid;
      tried := req.transmitMe;
      WireFlying(req, null);
      if tried {
        WireWeaker(req);
        var _, _ := Transmit(req);
        WireFlying(req, null);
      }
    }

    /** The request at place `i` of the wire has its turn. */
    method TransmitAt(req: Request, ghost i: nat, ghost ss: set<Nameserver>) returns (tried: bool, next: Request)
      requires inflight.Valid() && Wire(inflight.items, null) && Watched(ss)
      requires i < |inflight.items| && req == inflight.items[i]
      modifies ring`head, ring`at, ring`good
      modifies ring.members`state, ring.members`failedTimes, ring.members`probeTimer
      modifies ring.members`choked, ring.members`writeWaiting
      modifies inflight.items`ns, req`transmitMe, req`txCount, req`timer, req`sends
      ensures Wire(inflight.items, null) && tried == old(Post(req)).due && SentIfDue(old(Post(req)), Post(req))
      ensures forall k :: 0 <= k < |inflight.items| && k != i ==>
        Post(inflight.items[k]) == old(Post(inflight.items[k]))
      ensures old(Congestion()) || Post(req).due ==> Congestion()
      ensures !tried ==> unchanged(ring.members`choked)
      ensures Watched(ss) && next == inflight.items[if i + 1 == |inflight.items| then 0 else i + 1]
      ensures next == inflight.head <==> i + 1 == |inflight.items|
      ensures ring.Up() <= old(ring.Up())
    {
      hide Wire, RequestList.Valid, Congestion, SentIfDue, Watched, NameserverRing.Up;
      inflight.WalkFacts(i);
      tried := TransmitIfDue(req, ss);
      next := req.next;
    }

    /** evdns_transmit: tries every request that is due; false if none was. */
    method EvdnsTransmit(ghost ss: set<Nameserver>) returns (tried: bool)
      requires inflight.Valid() && Wire(inflight.items, null) && Watched(ss)
      modifies ring`head, ring`at, ring`good
      modifies ring.members`state, ring.members`failedTimes, ring.members`probeTimer
      modifies ring.members`choked, ring.members`writeWaiting
      modifies inflight.items`ns, inflight.items`transmitMe, inflight.items`txCount, inflight.items`timer
      modifies inflight.items`sends
      ensures Wire(inflight.items, null) && forall r :: r in inflight.items ==> Tried(r)
      ensures forall r :: r in inflight.items && Post(r).due ==> Congestion()
      ensures !tried ==> unchanged(ring.members`choked)
      ensures tried <==> exists r :: r in inflight.items && old(Post(r)).due
      ensures Watched(ss) && (old(Congestion()) ==> Congestion())
      ensures ring.Up() <= old(ring.Up())
    {
      hide Wire, RequestList.Valid, Congestion, SentIfDue, Post, Watched, NameserverRing.Up;
      tried := false;
      inflight.HeadFacts();
      if inflight.head == null { return; }
      var req: Request, more := inflight.head, true;
      inflight.WalkFacts(0);
      ghost var i: nat := 0;
      while more
        invariant Wire(inflight.items, null) && i <= |inflight.items|
        invariant if more then i < |inflight.items| && req == inflight.items[i] else i == |inflight.items|
        invariant forall k :: 0 <= k < i ==> Tried(inflight.items[k]) && (Post(inflight.items[k]).due ==> Congestion())
        invariant forall k :: i <= k < |inflight.items| ==> Post(inflight.items[k]) == old(Post(inflight.items[k]))
        invariant forall k :: 0 <= k < i && old(Post(inflight.items[k])).due ==> tried
        invariant if tried then exists k :: 0 <= k < i && old(Post(inflight.items[k])).due
                  else unchanged(ring.members`choked)
        invariant Watched(ss) && (old(Congestion()) ==> Congestion()) && ring.Up() <= old(ring.Up())
        decreases |inflight.items| - i
      {
        var due, next := TransmitAt(req, i, ss);
        tried := tried || due;
        req := next;
        i := i + 1;
        more := next != inflight.head;
      }
    }

    lemma WireWeaker(x: Request)
      requires inflight.Valid() && Wire(inflight.items, null)
      ensures Wire(inflight.items, x)
    {
    }

    // -------------------------------------------------------------- moving requests between the lists

    /** On neither list. */
    ghost predicate Loose(req: Request)
      reads inflight`items, waiting`items
    {
      req !in inflight.items && req !in waiting.items
    }

    method WireInsert(req: Request)
      requires Lists() && Loose(req) && req in members
      modifies `nInflight, inflight, inflight.items`next, inflight.items`prev, req`next, req`prev
      ensures Lists() && inflight.items == old(inflight.items) + [req]
    {
      assert forall i :: 0 <= i < |waiting.items| ==> waiting.items[i] in waiting.items;
      inflight.Insert(req);
      nInflight := nInflight + 1;
    }

    method WaitingInsert(req: Request)
      requires Lists() && Loose(req) && req in members
      modifies `nWaiting, waiting, waiting.items`next, waiting.items`prev, req`next, req`prev
      ensures Lists() && waiting.items == old(waiting.items) + [req]
    {
      assert forall i :: 0 <= i < |inflight.items| ==> inflight.items[i] in inflight.items;
      waiting.Insert(req);
      nWaiting := nWaiting + 1;
    }

    /** The oldest waiting request leaves its list. */
    method WaitingPop() returns (req: Request)
      requires Lists() && waiting.items != []
      modifies `nWaiting, waiting, waiting.items`next, waiting.items`prev
      ensures Lists() && Loose(req) && req in members
      ensures req == old(waiting.items)[0] && waiting.items == old(waiting.items)[1..]
    {
      assert forall i :: 0 <= i < |inflight.items| ==> inflight.items[i] in inflight.items;
      TailMembers(waiting.items);
      req := waiting.PopHead();
      nWaiting := nWaiting - 1;
    }

    method WireUnlink(req: Request)
      requires Lists() && req in inflight.items
      modifies `nInflight, inflight, inflight.items`next, inflight.items`prev
      ensures Lists() && inflight.items == Minus(old(inflight.items), req)
    {
      hide RequestList.Valid, Minus, NoRepeats;
      assert forall i :: 0 <= i < |waiting.items| ==> waiting.items[i] in waiting.items;
      ghost var was := inflight.items;
      inflight.Distinct();
      MinusMembers(was, req);
      inflight.Unlink(req);
      assert forall r :: r in Minus(was, req) ==> r in was;
      assert forall r :: r in inflight.items ==> r in old(inflight.items);
      nInflight := nInflight - 1;
    }

    /** The oldest waiting request, as it was parked. */
    method Unpark() returns (req: Request)
      requires Inv(null) && waiting.items != []
      modifies `nWaiting, waiting, waiting.items`next, waiting.items`prev
      ensures Inv(null) && Loose(req) && Parked(req) && Searchable(req) && req in members
      ensures req == old(waiting.items)[0] && waiting.items == old(waiting.items)[1..]
    {
      hide RequestList.Valid, Wire, Aside, Parked, Searchable, Apart, Asking, Carries;
      AsideShorter(inflight.items, waiting.items);
      req := WaitingPop();
    }

    /** A server and an id for a request that is about to go to the wire. */
    method Equip(req: Request)
      requires inflight.Valid() && Wire(inflight.items, null) && ring.order != []
      requires req !in inflight.items && Parked(req)
      modifies ring`head, ring`at, req`ns, req`transId, req`packet
      ensures Wire(inflight.items, null) && Flying(req)
    {
      hide RequestList.Valid, NameserverRing.Valid, NameserverRing.Next, PlaceAfter, ServersSound, AllFlying, Live,
           DownProbed, Asking, Carries;
      WireFacts();
      ghost var k: nat;
      req.ns, k := PickServer(null);
      var id := TransactionIdPick();
      RequestTransIdSet(req, id);
    }

    /** request_trans_id_set */
    method RequestTransIdSet(req: Request, id: nat)
      requires Asking(req)
      modifies req`transId, req`packet
      ensures Carries(req) && req.transId == id
    {
      hide RequestLen, Build;
      req.transId := id;
      req.packet := Short(id) + req.packet[2..];
      assert req.packet[2..] == old(req.packet)[2..];
    }

    method EquipLoose(req: Request)
      requires Inv(null) && Loose(req) && Parked(req) && ring.order != []
      modifies ring`head, ring`at, req`ns, req`transId, req`packet
      ensures Inv(null) && Flying(req)
    {
      hide Asking, Carries;
      Equip(req);
    }

    lemma WireLonger(f: seq<Request>, req: Request)
      requires Wire(f, null) && Flying(req)
      ensures Wire(f + [req], req)
    {
      forall s | s in ring.members && !s.state && ProbeIn(f, s) ensures ProbeIn(f + [req], s) {
        var r :| r in f && r.callback == Probe(s);
        assert r in f + [req];
      }
    }

    lemma AsideLonger(f: seq<Request>, w: seq<Request>, req: Request)
      requires Aside(f, w) && Searchable(req) && 1 <= maxInflight
      requires req.callback.User? ==> |f| < maxInflight
      ensures Aside(f + [req], w)
    {
      LookupsConcat(f, [req]);
      LookupsSingle(req);
      LookupsCount(f);
    }

    /** Onto the list of requests on the wire. */
    method EnqueueWire(req: Request)
      requires Inv(null) && Loose(req) && req in members && Flying(req) && Searchable(req)
      requires req.callback.User? ==> nInflight < maxInflight
      modifies `nInflight, inflight, inflight.items`next, inflight.items`prev, req`next, req`prev
      ensures Inv(req) && inflight.items == old(inflight.items) + [req]
    {
      hide Lists, Loose, Wire, Aside, Flying, Searchable;
      ListsFacts();
      Limits();
      WireLonger(inflight.items, req);
      AsideLonger(inflight.items, waiting.items, req);
      WireInsert(req);
    }

    lemma AsideShorter(f: seq<Request>, w: seq<Request>)
      requires Aside(f, w) && w != []
      ensures Aside(f, w[1..]) && Parked(w[0]) && Searchable(w[0])
    {
      assert w[0] in w;
      assert forall r :: r in w[1..] ==> r in w;
    }

    lemma AsideWaits(f: seq<Request>, w: seq<Request>, r: Request)
      requires Aside(f, w) && Parked(r) && Searchable(r)
      ensures Aside(f, w + [r])
    {
      hide Parked, Searchable, SearchLists;
    }

    lemma WireHasServers(f: seq<Request>, x: Request?)
      requires Wire(f, x)
      ensures f != [] ==> ring.order != []
    {
      if f != [] { assert f[0] in f; }
    }

    /** The oldest waiting request goes to the wire, not sent yet. */
    method TakeToWire() returns (req: Request)
      requires Inv(null) && waiting.items != [] && nInflight < maxInflight && ring.order != []
      modifies `nInflight, `nWaiting, inflight, waiting, ring`head, ring`at
      modifies members`next, members`prev, waiting.items`ns, waiting.items`transId, waiting.items`packet
      ensures Inv(req) && req.txCount == 0
      ensures req == old(waiting.items)[0]
      ensures inflight.items == old(inflight.items) + [req]
      ensures waiting.items == old(waiting.items)[1..]
    {
      hide Inv, Searchable, Flying;
      ListsFacts();
      req := Unpark();
      EquipLoose(req);
      EnqueueWire(req);
    }

    /** `req` was sent once more, or is due while its server is choked. */
    ghost predicate SentOrDue(req: Request, effort: Effort)
      reads `states, states, req
    {
      Below(EffortOf(req), effort) || (req.transmitMe && EffortOf(req) == effort)
    }

    /** Nothing was tried for `req`, which is due. */
    twostate predicate Rests(req: Request)
      reads req, ring, ring.members
    {
      && req.transmitMe && req.txCount == old(req.txCount) && req.ns == old(req.ns)
      && unchanged(ring) && forall s :: s in old(ring.members) ==> unchanged(s)
    }

    /** `r` was sent since its count of sends was `sent`, or some socket is full. */
    ghost predicate SentOrFull(r: Request, sent: int)
      reads r`txCount, ring`members, ring.members`choked
    {
      r.txCount > sent || Congestion()
    }

    /** Sends a request that was just put on the wire. */
    method SendNew(req: Request)
      requires Inv(req) && req in inflight.items && req.txCount < maxRetransmits
      modifies ring`head, ring`at, ring`good
      modifies ring.members`state, ring.members`failedTimes, ring.members`probeTimer
      modifies ring.members`choked, ring.members`writeWaiting
      modifies inflight.items`ns, req`transmitMe, req`txCount, req`timer, req`sends
      ensures Inv(null) && SentOrDue(req, old(EffortOf(req))) && Counted(req) && SentOrFull(req, old(req.txCount))
      ensures old(req.ns != null && req.ns.choked) ==> Rests(req)
      ensures old(Congestion()) ==> Congestion()
      ensures ring.Up() <= old(ring.Up())
    {
      hide Lists, Wire, SearchLists, Searchable, Parked, Lookups, Left, RequestList.Valid, NameserverRing.Up;
      NoneOnBoth(req);
      var _, _ := Transmit(req);
    }

    method SendDue(ghost ss: set<Nameserver>) returns (tried: bool)
      requires Inv(null) && Watched(ss)
      modifies ring`head, ring`at, ring`good
      modifies ring.members`state, ring.members`failedTimes, ring.members`probeTimer
      modifies ring.members`choked, ring.members`writeWaiting
      modifies inflight.items`ns, inflight.items`transmitMe, inflight.items`txCount, inflight.items`timer
      modifies inflight.items`sends
      ensures Inv(null) && forall r :: r in inflight.items ==> Tried(r)
      ensures forall r :: r in inflight.items && r.transmitMe ==> Congestion()
      ensures !tried ==> unchanged(ring.members`choked)
      ensures tried <==> exists r :: r in inflight.items && old(r.transmitMe)
      ensures Watched(ss) && (old(Congestion()) ==> Congestion())
      ensures ring.Up() <= old(ring.Up())
    {
      hide Lists, Wire, SearchLists, Searchable, Parked, Lookups, RequestList.Valid, Tried, Congestion, Watched,
           NameserverRing.Up;
      NoneOnBoth(null);
      tried := EvdnsTransmit(ss);
    }

    method SendNewAndDue(req: Request)
      requires Inv(req) && req in inflight.items && req.txCount < maxRetransmits
      modifies ring`head, ring`at, ring`good
      modifies ring.members`state, ring.members`failedTimes, ring.members`probeTimer
      modifies ring.members`choked, ring.members`writeWaiting
      modifies inflight.items`ns, inflight.items`transmitMe, inflight.items`txCount, inflight.items`timer
      modifies inflight.items`sends
      ensures Inv(null) && forall r :: r in inflight.items ==> Counted(r)
      ensures SentOrFull(req, old(req.txCount)) && (old(Congestion()) ==> Congestion())
      ensures ring.Up() <= old(ring.Up())
    {
      hide Inv, SentOrDue, Rests, Congestion, NameserverRing.Up;
      SendNew(req);
      var _ := SendDue({});
    }

    /** One round of the pump: the oldest waiting request goes to the wire, and everything due is sent. */
    method PumpOne()
      requires Inv(null) && waiting.items != [] && nInflight < maxInflight && ring.order != []
      modifies `nInflight, `nWaiting, inflight, waiting, ring`head, ring`at, ring`good
      modifies ring.members`state, ring.members`failedTimes, ring.members`probeTimer
      modifies ring.members`choked, ring.members`writeWaiting
      modifies members`next, members`prev, members`ns, members`transId, members`packet
      modifies members`transmitMe, members`txCount, members`timer, members`sends
      ensures Inv(null) && forall r :: r in members ==> Counted(r)
      ensures inflight.items == old(inflight.items) + [old(waiting.items)[0]]
      ensures waiting.items == old(waiting.items)[1..]
      ensures SentOrFull(old(waiting.items)[0], 0) && (old(Congestion()) ==> Congestion())
      ensures ring.Up() <= old(ring.Up())
    {
      hide Inv, Congestion, SentOrFull, NameserverRing.Up;
      ListsFacts();
      Limits();
      var req := TakeToWire();
      ListedFor(req);
      SendTaken(req);
    }

    /** That, and all that is not on the wire stays as it is. */
    method SendTaken(req: Request)
      requires Inv(req) && req in inflight.items && req.txCount < maxRetransmits
      modifies ring`head, ring`at, ring`good
      modifies ring.members`state, ring.members`failedTimes, ring.members`probeTimer
      modifies ring.members`choked, ring.members`writeWaiting
      modifies inflight.items`ns, inflight.items`transmitMe, inflight.items`txCount, inflight.items`timer
      modifies inflight.items`sends
      ensures Inv(null) && forall r :: r in members ==> Counted(r)
      ensures SentOrFull(req, old(req.txCount)) && (old(Congestion()) ==> Congestion())
      ensures ring.Up() <= old(ring.Up())
    {
      hide Inv, Congestion, SentOrFull, NameserverRing.Up;
      SendNewAndDue(req);
      forall r | r in members ensures Counted(r) {
        if r !in inflight.items { assert unchanged(r`txCount, r`sends); }
      }
    }

    method PumpStep(ghost f: seq<Request>, ghost w: seq<Request>, ghost k: nat)
      requires Inv(null) && waiting.items != [] && nInflight < maxInflight && ring.order != []
      requires Promoted(f, w, k, inflight.items, waiting.items)
      modifies `nInflight, `nWaiting, inflight, waiting, ring`head, ring`at, ring`good
      modifies ring.members`state, ring.members`failedTimes, ring.members`probeTimer
      modifies ring.members`choked, ring.members`writeWaiting
      modifies members`next, members`prev, members`ns, members`transId, members`packet
      modifies members`transmitMe, members`txCount, members`timer, members`sends
      ensures Inv(null) && Promoted(f, w, k + 1, inflight.items, waiting.items)
      ensures forall r :: r in members ==> Counted(r)
      ensures nInflight == old(nInflight) + 1 && nWaiting == old(nWaiting) - 1
      ensures SentOrFull(old(waiting.items)[0], 0) && (old(Congestion()) ==> Congestion())
      ensures inflight.items == old(inflight.items) + [old(waiting.items)[0]]
      ensures ring.Up() <= old(ring.Up())
    {
      PromotedOne(f, w, k);
      PumpOne();
    }

    /** No server changed, nor the ring of them. */
    twostate predicate RingKept()
      reads ring, ring.members
    {
      unchanged(ring) && forall s :: s in old(ring.members) ==> unchanged(s)
    }

    /** How many of `n` waiting requests fit when `busy` are on the wire. */
    ghost function Room(busy: int, n: nat): nat {
      if busy >= maxInflight then 0 else if maxInflight - busy < n then maxInflight - busy else n
    }

    /**
     * evdns_requests_pump_waiting_queue: the oldest waiting requests go to the wire, in order, until it is
     * full or none waits.
     */
    method Pump()
      requires Inv(null) && (waiting.items != [] ==> ring.order != [])
      modifies `nInflight, `nWaiting, inflight, waiting, ring`head, ring`at, ring`good
      modifies ring.members`state, ring.members`failedTimes, ring.members`probeTimer
      modifies ring.members`choked, ring.members`writeWaiting
      modifies members`next, members`prev, members`ns, members`transId, members`packet
      modifies members`transmitMe, members`txCount, members`timer, members`sends
      ensures Inv(null) && Settled() && forall r :: r in members ==> Counted(r)
      ensures old(waiting.items) == [] ==> RingKept() && ring.Up() == old(ring.Up())
      ensures Promoted(old(inflight.items), old(waiting.items), Room(old(nInflight), |old(waiting.items)|),
        inflight.items, waiting.items)
      ensures forall r :: r in old(waiting.items) && r in inflight.items ==> SentOrFull(r, 0)
      ensures ring.Up() <= old(ring.Up())
    {
      hide RequestList.Valid, Wire, Aside, Congestion, Promoted, NameserverRing.Up;
      ghost var f, w, k: nat := inflight.items, waiting.items, 0;
      ghost var busy := nInflight;
      StartPromotion(f, w);
      while nInflight < maxInflight && nWaiting > 0
        invariant Inv(null) && Promoted(f, w, k, inflight.items, waiting.items)
        invariant forall r :: r in members ==> Counted(r)
        invariant forall r :: r in w && r in inflight.items ==> SentOrFull(r, 0)
        invariant (k == 0 ==> RingKept() && ring.Up() == old(ring.Up())) && ring.Up() <= old(ring.Up())
        invariant nInflight == busy + k && nWaiting == |w| - k && (k > 0 ==> nInflight <= maxInflight)
        invariant waiting.items != [] ==> ring.order != []
        decreases nWaiting
      {
        PumpStep(f, w, k);
        k := k + 1;
      }
      assert k == Room(busy, |w|);
    }

    // -------------------------------------------------------------- finishing

    /** `req` left the wire, and the oldest of those that wait took the free places, in order. */
    ghost predicate Replaced(f: seq<Request>, w: seq<Request>, req: Request, f': seq<Request>, w': seq<Request>) {
      f != [] && Promoted(Minus(f, req), w, Room(|f| - 1, |w|), f', w')
    }

    /** The prober of `r`, if it is a probe, has heard of the outcome: its server is up or its timer runs. */
    ghost predicate ProberTold(r: Request)
      reads if r.callback.Probe? then {r.callback.server} else {}
    {
      r.callback.Probe? ==> r.callback.server.state || r.callback.server.probeTimer.Some?
    }

    lemma WireWithout(f: seq<Request>, req: Request)
      requires Wire(f, req) && NoRepeats(f) && req in f && ProberTold(req)
      ensures Wire(Minus(f, req), null)
    {
      MinusMembers(f, req);
      forall s | s in ring.members && !s.state && !s.probeTimer.Some? ensures ProbeIn(Minus(f, req), s) {
        var r :| r in f && r.callback == Probe(s);
        assert r in Minus(f, req);
      }
    }

    lemma AsideWithout(f: seq<Request>, w: seq<Request>, req: Request)
      requires Aside(f, w) && NoRepeats(f) && req in f
      ensures Aside(Minus(f, req), w)
    {
      MinusMembers(f, req);
      LookupsMinus(f, req);
    }

    lemma DropFacts(req: Request) returns (f: seq<Request>)
      requires Inv(req) && req in inflight.items && ProberTold(req)
      ensures f == Minus(inflight.items, req) && |f| == nInflight - 1 && req !in f && req !in waiting.items
      ensures Wire(f, null) && Aside(f, waiting.items) && ring.order != []
    {
      assert Flying(req);
      f := Minus(inflight.items, req);
      WireWithout(inflight.items, req);
      AsideWithout(inflight.items, waiting.items, req);
      MinusMembers(inflight.items, req);
    }

    /** Takes a request off the wire. */
    method Drop(req: Request)
      requires Inv(req) && req in inflight.items && ProberTold(req)
      modifies `nInflight, inflight, inflight.items`next, inflight.items`prev
      ensures Inv(null) && Loose(req) && inflight.items == Minus(old(inflight.items), req)
      ensures ring.order != [] && nInflight == old(nInflight) - 1
    {
      hide RequestList.Valid, NameserverRing.Valid, SearchState.Valid, Nameserver.Sound, Apart, Lookups, Conserved,
           Settled, Asking, Carries;
      ghost var f := DropFacts(req);
      WireUnlink(req);
      assert inflight.items == f;
    }

    /** What is left of a finished request before it is freed. */
    method Retire(req: Request)
      requires Inv(null) && Loose(req)
      modifies req`timer, req`search
      ensures Inv(null) && !req.timer && req.search == null
    {
      hide Asking, Carries;
      req.timer := false;
      req.search := null;
    }

    method TakeAway(req: Request)
      requires Inv(req) && req in inflight.items && ProberTold(req)
      modifies `nInflight, inflight, inflight.items`next, inflight.items`prev, req`timer, req`search
      ensures Inv(null) && Loose(req) && inflight.items == Minus(old(inflight.items), req)
      ensures ring.order != [] && nInflight == old(nInflight) - 1 && !req.timer && req.search == null
    {
      hide *;
      Drop(req);
      Retire(req);
    }

    /** request_finished: off the wire, and the pump fills the place. */
    method RequestFinished(req: Request)
      requires Inv(req) && req in inflight.items && ProberTold(req)
      modifies `nInflight, `nWaiting, inflight, waiting, ring`head, ring`at, ring`good
      modifies ring.members`state, ring.members`failedTimes, ring.members`probeTimer
      modifies ring.members`choked, ring.members`writeWaiting
      modifies members`next, members`prev, members`ns, members`transId, members`packet
      modifies members`transmitMe, members`txCount, members`timer, members`sends, req`search
      ensures Inv(null) && Settled()
      ensures old(waiting.items) == [] ==> RingKept() && ring.Up() == old(ring.Up())
      ensures Replaced(old(inflight.items), old(waiting.items), req, inflight.items, waiting.items)
      ensures ring.Up() <= old(ring.Up())
    {
      hide Inv, ProberTold, Settled, Promoted, Room, NameserverRing.Up, Minus, Loose, Counted;
      ListedFor(req);
      TakeAway(req);
      Pump();
    }

    // -------------------------------------------------------------- callbacks

    /** nameserver_up */
    method NameserverUp(ns: Nameserver, ghost x: Request?)
      requires Wire(inflight.items, x) && ns in ring.members
      modifies ring`good, ns`state, ns`failedTimes, ns`probeTimer, ns`timedout
      ensures Wire(inflight.items, x) && ns.state && ring.Up() == old(ring.Up()) + {ns}
      ensures Uncounted(old(Counters()), Counters())
    {
      hide AllFlying, Live, Asking, Carries, NameserverRing.Valid;
      ring.MarkUp(ns);
    }

    /** nameserver_probe_failed: wait longer before the next probe, unless the server came back meanwhile. */
    method ProbeFailed(ns: Nameserver, ghost x: Request?)
      requires Wire(inflight.items, x) && ns in ring.members
      modifies ns`failedTimes, ns`probeTimer
      ensures Wire(inflight.items, x)
      ensures ns.state ==> ns.probeTimer == None
      ensures !ns.state ==>
        && ns.probeTimer == Some(ProbeDelay(old(ns.failedTimes)))
        && ns.failedTimes == old(ns.failedTimes) + 1
    {
      hide Asking, Carries;
      ns.probeTimer := None;
      if ns.state { return; }
      ns.probeTimer := Some(ProbeDelay(ns.failedTimes));
      ns.failedTimes := ns.failedTimes + 1;
    }

    /** nameserver_probe_callback: an answer, or the word that the name does not exist, shows the server works. */
    method ProbeCallback(ns: Nameserver, outcome: Outcome, ghost x: Request?)
      requires Wire(inflight.items, x) && ns in ring.members
      modifies ring`good, ns`state, ns`failedTimes, ns`probeTimer, ns`timedout
      ensures Wire(inflight.items, x) && (ns.state || ns.probeTimer.Some?)
      ensures if outcome.Answer? || outcome == Error(ERR_NOTEXIST) then ns.state else ns.state == old(ns.state)
      ensures ring.Up() == old(ring.Up()) + if outcome.Answer? || outcome == Error(ERR_NOTEXIST) then {ns} else {}
      ensures !ns.state ==> ns.probeTimer == Some(ProbeDelay(old(ns.failedTimes)))
      ensures Uncounted(old(Counters()), Counters())
      ensures !outcome.Answer? && outcome != Error(ERR_NOTEXIST) ==> Counters().count == old(Counters().count)
    {
      hide Uncounted, Wire;
      if outcome.Answer? || outcome == Error(ERR_NOTEXIST) {
        NameserverUp(ns, x);
      } else {
        ProbeFailed(ns, x);
        OnlyDowns();
      }
    }

    /** The server that the outcome of a probe brings up. */
    ghost function Vouched(req: Request, outcome: Outcome): set<Nameserver> {
      if req.callback.Probe? && (outcome.Answer? || outcome == Error(ERR_NOTEXIST)) then {req.callback.server} else {}
    }

    /** reply_callback */
    method ReplyCallback(req: Request, outcome: Outcome, ghost x: Request?)
      requires Wire(inflight.items, x) && Flying(req)
      modifies `delivered, ring`good, ring.members`state, ring.members`failedTimes
      modifies ring.members`probeTimer, ring.members`timedout
      ensures Wire(inflight.items, x) && ProberTold(req)
      ensures Records(old(delivered), delivered, req, outcome)
      ensures req.callback.User? ==> RingKept()
      ensures req.callback.Probe? ==>
        && (forall s :: s in ring.members && s != req.callback.server ==> unchanged(s))
        && req.callback.server.state
          == (outcome.Answer? || outcome == Error(ERR_NOTEXIST) || old(req.callback.server.state))
      ensures ring.Up() == old(ring.Up()) + Vouched(req, outcome)
      ensures Uncounted(old(Counters()), Counters())
      ensures Vouched(req, outcome) == {} ==> Counters().count == old(Counters().count)
    {
      hide Wire, NameserverRing.Up, Uncounted, Counters;
      match req.callback
      case User(lookup) =>
        delivered := delivered + [Delivery(lookup, outcome)];
        OnlyDowns();
      case Probe(ns) => ProbeCallback(ns, outcome, x);
    }

    // -------------------------------------------------------------- the same steps, with all that holds

    /** `req` is on the wire although its lookup is already accounted for otherwise. */
    ghost predicate Overpaid(req: Request)
      reads `accepted, `delivered, inflight`items, waiting`items
    {
      Accounted(accepted + LookupOf(req), inflight.items, waiting.items, delivered)
    }

    /** request_finished for a request whose lookup is accounted for otherwise. */
    method FinishPaid(req: Request)
      requires Inv(req) && req in inflight.items && ProberTold(req) && Overpaid(req)
      modifies `nInflight, `nWaiting, inflight, waiting, ring`head, ring`at, ring`good
      modifies ring.members`state, ring.members`failedTimes, ring.members`probeTimer
      modifies ring.members`choked, ring.members`writeWaiting
      modifies members`next, members`prev, members`ns, members`transId, members`packet
      modifies members`transmitMe, members`txCount, members`timer, members`sends, req`search
      ensures Inv(null) && Settled() && Conserved()
      ensures old(waiting.items) == [] ==> RingKept() && ring.Up() == old(ring.Up())
      ensures Replaced(old(inflight.items), old(waiting.items), req, inflight.items, waiting.items)
      ensures ring.Up() <= old(ring.Up())
    {
      ghost var f, w := inflight.items, waiting.items;
      RequestFinished(req);
      AccountedFinished(accepted, f, w, delivered, req, Room(|f| - 1, |w|), inflight.items, waiting.items);
    }

    method Callback(req: Request, outcome: Outcome, ghost x: Request?)
      requires Inv(x) && req in inflight.items
      modifies `delivered, ring`good, ring.members`state, ring.members`failedTimes
      modifies ring.members`probeTimer, ring.members`timedout
      ensures Inv(x) && ProberTold(req) && Records(old(delivered), delivered, req, outcome)
      ensures req.callback.User? ==> RingKept()
      ensures ring.Up() == old(ring.Up()) + Vouched(req, outcome)
      ensures Uncounted(old(Counters()), Counters())
      ensures Vouched(req, outcome) == {} ==> Counters().count == old(Counters().count)
    {
      hide RequestList.Valid, NameserverRing.Valid, SearchState.Valid, Nameserver.Sound, Apart, Lookups, Conserved,
           Settled, NameserverRing.Up, Vouched, Uncounted, Counters, Asking, Carries, Searchable, Affordable;
      assert Flying(req);
      ReplyCallback(req, outcome, x);
    }

    /** reply_callback, with all that holds. */
    method Tell(req: Request, outcome: Outcome, ghost x: Request?)
      requires Inv(x) && Conserved() && req in inflight.items
      modifies `delivered, ring`good, ring.members`state, ring.members`failedTimes
      modifies ring.members`probeTimer, ring.members`timedout
      ensures Inv(x) && ProberTold(req) && Overpaid(req) && Records(old(delivered), delivered, req, outcome)
      ensures req.callback.User? ==> RingKept()
      ensures ring.Up() == old(ring.Up()) + Vouched(req, outcome)
      ensures Uncounted(old(Counters()), Counters())
      ensures Vouched(req, outcome) == {} ==> Counters().count == old(Counters().count)
    {
      hide NameserverRing.Up, Vouched, Uncounted, Counters;
      AccountedTold(accepted, inflight.items, waiting.items, delivered, req, outcome);
      Callback(req, outcome, x);
    }

    method RaiseServer(ns: Nameserver, req: Request)
      requires Inv(null) && ns in ring.members
      modifies ring`good, ns`state, ns`failedTimes, ns`probeTimer, ns`timedout
      ensures Inv(null) && (old(ProberTold(req)) ==> ProberTold(req)) && ns.state
      ensures ring.Up() == old(ring.Up()) + {ns}
      ensures Uncounted(old(Counters()), Counters())
    {
      hide RequestList.Valid, NameserverRing.Valid, SearchState.Valid, Nameserver.Sound, Apart, NameserverRing.Up,
           Uncounted, Counters;
      NameserverUp(ns, null);
    }

    method FailServer(ns: Nameserver, ghost x: Request?, ghost w: Request?) returns (ghost moved: bool)
      requires Inv(x) && ns in ring.members
      modifies ring`head, ring`at, ring`good, ns`state, ns`failedTimes, ns`probeTimer, inflight.items`ns
      ensures Inv(x) && !ns.state && ring.Up() == old(ring.Up()) - {ns}
      ensures moved <==> old(ns.state) && ring.good > 0
      ensures moved ==> forall r :: r in inflight.items ==> Placed(r, old(r.ns), ns)
      ensures moved && w != null && w in inflight.items && old(Unsent(w, ns)) ==>
        ring.PickedAgo(w.ns, old(UnsentFrom(inflight.items, w, ns)))
      ensures !moved ==> unchanged(inflight.items`ns, ring`head, ring`at)
    {
      hide Wire, RequestList.Valid, SearchLists, Searchable, Placed, UnsentFrom, NameserverRing.PickedAgo, Asking,
           Carries;
      moved := NameserverFailed(ns, x, w);
    }

    lemma GoodIfUp()
      requires Inv(null) && ring.Up() != {}
      ensures ring.good > 0
    {
    }

    lemma FlyingFacts(req: Request)
      requires Inv(null) && req in inflight.items
      ensures Flying(req) && req.ns != null && req.ns in ring.members && req.transId < NO_ID
      ensures req.txCount <= maxRetransmits && req.reissueCount <= maxReissues
    {
    }

    lemma InvFor(x: Request)
      requires Inv(null)
      ensures Inv(x)
    {
    }

    // -------------------------------------------------------------- trying another server

    /**
     * request_reissue: 0 if the request is now due at another server, 1 if the choice fell on the same one.
     */
    method RequestReissue(req: Request) returns (r: int)
      requires inflight.Valid() && Wire(inflight.items, null) && req in inflight.items && req.reissueCount < maxReissues
      modifies ring`head, ring`at, req`ns, req`reissueCount, req`txCount, req`transmitMe
      ensures Wire(inflight.items, null) && r in {0, 1}
      ensures req.ns == old(ring.Next()) && (r == 1 <==> req.ns == old(req.ns))
      ensures r == 1 ==> unchanged(req`reissueCount, req`txCount, req`transmitMe)
      ensures r == 0 ==> req.reissueCount == old(req.reissueCount) + 1 && req.txCount == 0 && req.transmitMe
      ensures ring.good > 0 ==> AtUpServer(req)
    {
      hide *;
      var last := req.ns;
      ghost var _ := MoveOne(req, null);
      if req.ns == last { return 1; }
      StartOver(req);
      return 0;
    }

    /** One more reissue, and due again as after no sending. */
    method StartOver(req: Request)
      requires inflight.Valid() && Wire(inflight.items, null) && req in inflight.items && req.reissueCount < maxReissues
      modifies req`reissueCount, req`txCount, req`transmitMe
      ensures Wire(inflight.items, null)
      ensures req.reissueCount == old(req.reissueCount) + 1 && req.txCount == 0 && req.transmitMe
    {
      hide NameserverRing.Valid, ServersSound, DownProbed, Inv, Lists, Aside, Asking, Carries;
      req.reissueCount := req.reissueCount + 1;
      req.txCount := 0;
      req.transmitMe := true;
    }

    // -------------------------------------------------------------- new requests

    /** Whether a request made now goes straight to the wire. */
    ghost predicate WouldFly()
      reads `nInflight, ring`order
    {
      nInflight < maxInflight && ring.order != []
    }

    /** A request that no list has seen yet; it can go to the wire if it has a server. */
    ghost predicate Newborn(req: Request, name: seq<Byte>, kind: Kind, callback: Callback, story: Story)
      reads req
    {
      && Carries(req) && req.story == story && req.name == name && req.kind == kind && req.callback == callback
        && req.search == null
      && req.txCount == req.reissueCount == req.sends == 0 && !req.transmitMe && !req.timer
    }

    /** The packet of a request, from a new buffer of the size computed for it; None if the name is refused. */
    method BuildPacket(name: seq<Byte>, kind: Kind, transId: nat) returns (packet: Option<seq<Byte>>)
      ensures packet.Some? <==> Encodable(name)
      ensures packet.Some? ==> Build(name, transId, TypeOf(kind), CLASS_INET, RequestLen(|name|)) == Built(packet.value)
      ensures packet.Some? ==> Asks(packet.value, name, TypeOf(kind)) && packet.value[..2] == Short(transId)
    {
      hide Build, Encodable, Asks;
      var bufLen := RequestLen(|name|);
      var buf := new Byte[bufLen + 1];
      RequestAlwaysFits(name, transId, TypeOf(kind), CLASS_INET);
      var len := EvdnsRequestDataBuild(name, transId, TypeOf(kind), CLASS_INET, buf, bufLen);
      if len < 0 { return None; }
      OtherIdentifier(name, TypeOf(kind), transId, buf[..len]);
      return Some(buf[..len]);
    }

    lemma WireFacts()
      requires Wire(inflight.items, null)
      ensures ring.Valid() && forall r :: r in inflight.items ==> r.transId < NO_ID
    {
      assert forall r :: r in inflight.items ==> Flying(r);
    }

    /** request_new: null if no packet can be built for the name.  The id is drawn before, the server picked after. */
    method RequestNew(name: seq<Byte>, kind: Kind, callback: Callback, ghost story: Story) returns (req: Request?)
      requires inflight.Valid() && Wire(inflight.items, null)
      modifies ring`head, ring`at
      ensures Wire(inflight.items, null)
      ensures req != null <==> Encodable(name)
      ensures req == null ==> unchanged(ring)
      ensures req != null ==> fresh(req) && Newborn(req, name, kind, callback, story)
      ensures req != null ==>
        if WouldFly() then req.ns != null && req.ns in ring.members && req.transId < NO_ID else req.ns == null
      ensures req != null && WouldFly() ==> req.ns == old(ring.Next())
    {
      hide Encodable, Wire, NameserverRing.Next, Asks, Build;
      var issuingNow := nInflight < maxInflight;
      var transId, ns := NO_ID, null;
      ghost var k: nat := 0;
      WireFacts();
      if issuingNow { transId := TransactionIdPick(); }
      var packet := BuildPacket(name, kind, transId);
      if packet.None? { return null; }
      if issuingNow { ns, k := PickServer(null); }
      req := new Request(name, kind, callback, transId, packet.value, ns, story);
    }

    /** Fit to be submitted. */
    ghost predicate Submittable(req: Request)
      reads `nInflight, `states, `suspensions, states, ring`members, req
    {
      && Searchable(req) && req.txCount == 0
      && if req.ns != null then Flying(req) && (req.callback.User? ==> nInflight < maxInflight) else Parked(req)
    }

    method SubmitToWire(req: Request)
      requires Inv(null) && Loose(req) && Submittable(req) && req.ns != null && req in members
      modifies `nInflight, inflight, ring`head, ring`at, ring`good
      modifies ring.members`state, ring.members`failedTimes, ring.members`probeTimer
      modifies ring.members`choked, ring.members`writeWaiting
      modifies inflight.items`next, inflight.items`prev
      modifies inflight.items`ns, req`next, req`prev, req`ns, req`transmitMe, req`txCount, req`timer, req`sends
      ensures Inv(null) && inflight.items == old(inflight.items) + [req] && Counted(req)
      ensures old(req.ns.choked) ==>
        req.transmitMe && req.txCount == 0 && req.ns == old(req.ns) && unchanged(ring, ring.members)
      ensures SentOrFull(req, 0)
      ensures ring.Up() <= old(ring.Up())
    {
      hide Inv, Loose, Flying, Searchable, Parked, SentOrDue, EffortOf, Congestion, NameserverRing.Up;
      Limits();
      EnqueueWire(req);
      SendNew(req);
    }

    method SubmitToWaiting(req: Request)
      requires Inv(null) && Loose(req) && Submittable(req) && req.ns == null && req in members
      modifies `nWaiting, waiting, waiting.items`next, waiting.items`prev, req`next, req`prev
      ensures Inv(null) && waiting.items == old(waiting.items) + [req]
    {
      hide Inv, Lists, Loose, Wire, Aside, Submittable;
      WaitingAsides(req);
      WaitingInsert(req);
      Together();
    }

    lemma WaitingAsides(req: Request)
      requires Inv(null) && Submittable(req) && req.ns == null
      ensures Lists() && Wire(inflight.items, null) && Aside(inflight.items, waiting.items + [req])
    {
      hide Lists, Wire, Aside, Flying, Parked, Searchable;
      AsideWaits(inflight.items, waiting.items, req);
    }

    lemma Together()
      requires Lists() && Wire(inflight.items, null) && Aside(inflight.items, waiting.items)
      ensures Inv(null)
    {
    }

    method Admit(req: Request)
      requires Inv(null)
      modifies `members
      ensures Inv(null) && members == old(members) + {req}
    {
      members := members + {req};
    }

    /** request_submit: to the wire if the request has a server, else to the waiting list. */
    method RequestSubmit(req: Request)
      requires Inv(null) && Loose(req) && Submittable(req)
      modifies `nInflight, `nWaiting, `members, inflight, waiting, ring`head, ring`at, ring`good
      modifies ring.members`state, ring.members`failedTimes, ring.members`probeTimer
      modifies ring.members`choked, ring.members`writeWaiting
      modifies inflight.items`next, inflight.items`prev, waiting.items`next, waiting.items`prev
      modifies inflight.items`ns, req`next, req`prev, req`ns, req`transmitMe, req`txCount, req`timer, req`sends
      ensures Inv(null) && members == old(members) + {req}
      ensures Queued(old(inflight.items), old(waiting.items), inflight.items, waiting.items, req, old(req.ns) != null)
      ensures ring.Up() <= old(ring.Up())
    {
      hide RequestList.Valid, NameserverRing.Valid, SearchState.Valid, Nameserver.Sound, Apart, Lookups, Conserved,
           Settled, NameserverRing.Up;
      Admit(req);
      if req.ns != null {
        SubmitToWire(req);
      } else {
        SubmitToWaiting(req);
      }
    }

    /** A try can be made a request: it leaves no search, or a place in the search `st` for `orig`. */
    ghost predicate Tryable(t: Try, kind: Kind, st: SearchState?, orig: seq<Byte>, story: Story)
      reads `states, states, `suspensions
    {
      && Affordable(story)
      && (t.index.Some? ==>
            && st != null && st in states && st == story.list && -1 <= t.index.value < |st.domains|
            && orig == story.name != [] && kind != Ptr)
      && OnPlan(story, t.name, LeftAfter(t, st, orig))
    }

    /** The names that are tried after `t`. */
    ghost function LeftAfter(t: Try, st: SearchState?, orig: seq<Byte>): seq<seq<Byte>>
      reads `states, states
    {
      if t.index.None? || st == null || st !in states || orig == [] || t.index.value < -1 then []
      else RestTries(orig, st.ndots, Texts(st.domains), t.index.value)
    }

    /** `req` is the request for the try `t`. */
    ghost predicate IsTry(req: Request, t: Try, kind: Kind, lookup: nat, st: SearchState?, orig: seq<Byte>,
      story: Story)
      reads req`search, req`searchIndex, req`origName
    {
      && req.name == t.name && req.kind == kind && req.callback == User(lookup) && req.story == story
      && if t.index.None? then req.search == null
         else req.search == st && req.searchIndex == t.index.value && req.origName == orig
    }

    method NewLoose(name: seq<Byte>, kind: Kind, lookup: nat, ghost story: Story) returns (req: Request?)
      requires Inv(null)
      modifies ring`head, ring`at
      ensures Inv(null) && (req == null <==> !Encodable(name)) && (req == null ==> unchanged(ring))
      ensures req != null ==> fresh(req) && Loose(req) && Newborn(req, name, kind, User(lookup), story)
      ensures req != null ==>
        if WouldFly() then req.ns != null && req.ns in ring.members && req.transId < NO_ID else req.ns == null
      ensures req != null && WouldFly() ==> req.ns == old(ring.Next())
    {
      hide RequestList.Valid, NameserverRing.Valid, SearchState.Valid, Nameserver.Sound, Apart, Lookups, Encodable,
           OnPlan;
      req := RequestNew(name, kind, User(lookup), story);
    }

    /** Sets the search fields of a new request. */
    method SetSearch(req: Request, t: Try, st: SearchState?, orig: seq<Byte>)
      requires Inv(null) && Loose(req) && Tryable(t, req.kind, st, orig, req.story) && req.callback.User?
      requires Newborn(req, t.name, req.kind, req.callback, req.story)
      modifies req`search, req`searchIndex, req`origName
      ensures Inv(null) && Searchable(req) && IsTry(req, t, req.kind, req.callback.lookup, st, orig, req.story)
    {
      hide Inv, Conserved, Settled, OnPlan;
      if t.index.Some? {
        req.search, req.searchIndex, req.origName := st, t.index.value, orig;
      }
    }

    method NewTry(t: Try, kind: Kind, lookup: nat, st: SearchState?, orig: seq<Byte>, ghost story: Story)
      returns (req: Request?)
      requires Inv(null) && Tryable(t, kind, st, orig, story)
      modifies ring`head, ring`at
      ensures Inv(null) && (req == null <==> !Encodable(t.name)) && (req == null ==> unchanged(ring))
      ensures req != null ==> fresh(req) && Loose(req) && Submittable(req) && (req.ns != null <==> WouldFly())
      ensures req != null ==>
        && IsTry(req, t, kind, lookup, st, orig, story)
        && req.reissueCount == req.txCount == req.sends == 0
      ensures req != null && WouldFly() ==> req.ns == old(ring.Next())
    {
      hide RequestList.Valid, NameserverRing.Valid, SearchState.Valid, Nameserver.Sound, Apart, Lookups, Encodable,
           OnPlan;
      req := NewLoose(t.name, kind, lookup, story);
      if req != null { SetSearch(req, t, st, orig); }
    }

    /** All is as it was. */
    twostate predicate NothingDone()
      reads this, inflight, waiting, ring, ring.members, inflight.items, waiting.items
    {
      && unchanged(this, inflight, waiting, ring) && (forall s :: s in old(ring.members) ==> unchanged(s))
      && (forall r :: r in old(inflight.items) ==> unchanged(r)) && forall r :: r in old(waiting.items) ==> unchanged(r)
    }

    /** Makes the request for a try and submits it; null if no packet can be built for the name. */
    method Issue(t: Try, kind: Kind, lookup: nat, st: SearchState?, orig: seq<Byte>, ghost story: Story)
      returns (req: Request?)
      requires Inv(null) && Tryable(t, kind, st, orig, story)
      modifies `nInflight, `nWaiting, `members, inflight, waiting, ring`head, ring`at, ring`good
      modifies ring.members`state, ring.members`failedTimes, ring.members`probeTimer
      modifies ring.members`choked, ring.members`writeWaiting
      modifies inflight.items`next, inflight.items`prev, waiting.items`next, waiting.items`prev, inflight.items`ns
      ensures Inv(null) && (req == null <==> !Encodable(t.name))
      ensures req == null ==> NothingDone()
      ensures req != null ==>
        && fresh(req) && IsTry(req, t, kind, lookup, st, orig, story)
        && members == old(members) + {req}
      ensures req != null ==>
        Queued(old(inflight.items), old(waiting.items), inflight.items, waiting.items, req, old(WouldFly()))
      ensures ring.Up() <= old(ring.Up())
    {
      hide Inv, Tryable, IsTry, Queued, WouldFly, Encodable, Loose, Submittable, NameserverRing.Up;
      req := NewTry(t, kind, lookup, st, orig, story);
      if req != null { SubmitTry(req, t, kind, lookup, st, orig, story); }
    }

    method SubmitTry(req: Request, ghost t: Try, ghost kind: Kind, ghost lookup: nat, ghost st: SearchState?,
                     ghost orig: seq<Byte>, ghost story: Story)
      requires Inv(null) && Loose(req) && Submittable(req) && (req.ns != null <==> WouldFly())
      requires IsTry(req, t, kind, lookup, st, orig, story)
      modifies `nInflight, `nWaiting, `members, inflight, waiting, ring`head, ring`at, ring`good
      modifies ring.members`state, ring.members`failedTimes, ring.members`probeTimer
      modifies ring.members`choked, ring.members`writeWaiting
      modifies inflight.items`next, inflight.items`prev, waiting.items`next, waiting.items`prev, inflight.items`ns, req
      ensures Inv(null) && IsTry(req, t, kind, lookup, st, orig, story) && members == old(members) + {req}
      ensures Queued(old(inflight.items), old(waiting.items), inflight.items, waiting.items, req, old(WouldFly()))
      ensures ring.Up() <= old(ring.Up())
    {
      hide *;
      RequestSubmit(req);
    }

    // -------------------------------------------------------------- lookups and searches

    /** This lookup goes through the search list. */
    predicate Searches(kind: Kind, noSearch: bool)
      reads `search, search
    {
      !noSearch && kind != Ptr && search != null && search.numDomains != 0
    }

    /** The first try of a lookup. */
    ghost function FirstOf(kind: Kind, name: seq<Byte>, noSearch: bool): Try
      requires SearchLists() && (Searches(kind, noSearch) ==> name != [])
      reads `search, `states, `nodes, states, nodes`next
    {
      if Searches(kind, noSearch) then FirstTry(name, search.ndots, Texts(search.domains)) else Try(name, None)
    }

    /** Its story begins: its candidates are those of the list as it is. */
    ghost function StoryOf(kind: Kind, name: seq<Byte>, noSearch: bool): (s: Story)
      requires SearchLists() && (Searches(kind, noSearch) ==> name != [])
      ensures |s.names| == 1 && |s.plan| == if Searches(kind, noSearch) then search.numDomains + 1 else 1
      reads `search, `states, `nodes, states, nodes`next
    {
      var first := FirstOf(kind, name, noSearch).name;
      if Searches(kind, noSearch)
      then Story(name, [first], Candidates(name, search.ndots, Texts(search.domains)), search, search.edits, 0)
      else Story(name, [first], [name], null, 0, 0)
    }

    lemma FirstOnPlan(kind: Kind, name: seq<Byte>, noSearch: bool)
      requires SearchLists() && (Searches(kind, noSearch) ==> name != [])
      ensures Tryable(FirstOf(kind, name, noSearch), kind, search, name, StoryOf(kind, name, noSearch))
    {
      hide RestTries, Candidates;
      if Searches(kind, noSearch) { SearchOrder(name, search.ndots, Texts(search.domains)); }
    }

    /** The choice search_request_new makes. */
    method ChooseFirst(kind: Kind, name: seq<Byte>, noSearch: bool) returns (t: Try)
      requires SearchLists() && (Searches(kind, noSearch) ==> name != [])
      ensures t == FirstOf(kind, name, noSearch)
    {
      if noSearch || kind == Ptr || search == null || search.numDomains == 0 { return Try(name, None); }
      assert search in states;
      var dots := StringNumDots(name);
      if dots >= search.ndots {
        return Try(name, Some(-1));
      }
      var newName := search.MakeNew(0, name);
      return Try(newName, Some(0));
    }

    /** The first request of a lookup. */
    method IssueFirst(kind: Kind, name: seq<Byte>, noSearch: bool, lookup: nat) returns (req: Request?)
      requires Inv(null) && (Searches(kind, noSearch) ==> name != [])
      modifies `nInflight, `nWaiting, `members, inflight, waiting, ring`head, ring`at, ring`good
      modifies ring.members`state, ring.members`failedTimes, ring.members`probeTimer
      modifies ring.members`choked, ring.members`writeWaiting
      modifies inflight.items`next, inflight.items`prev, waiting.items`next, waiting.items`prev, inflight.items`ns
      ensures Inv(null) && (req == null <==> !Encodable(old(FirstOf(kind, name, noSearch)).name))
      ensures req == null ==> NothingDone()
      ensures req != null ==>
        && fresh(req) && members == old(members) + {req}
        && IsTry(req, old(FirstOf(kind, name, noSearch)), kind, lookup, search, name,
          old(StoryOf(kind, name, noSearch)))
      ensures req != null ==>
        Queued(old(inflight.items), old(waiting.items), inflight.items, waiting.items, req, old(WouldFly()))
      ensures fresh(members - old(members))
      ensures ring.Up() <= old(ring.Up())
    {
      hide Lists, Wire, Searchable, FirstOf, StoryOf, Tryable, IsTry, Queued, WouldFly, Encodable, NameserverRing.Up;
      FirstOnPlan(kind, name, noSearch);
      var t := ChooseFirst(kind, name, noSearch);
      req := Issue(t, kind, lookup, search, name, StoryOf(kind, name, noSearch));
    }

    /** evdns_resolve_*: 0 if the lookup was accepted, 1 if no packet can be built for its first name. */
    method Resolve(kind: Kind, name: seq<Byte>, noSearch: bool, lookup: nat) returns (r: int, ghost req: Request?)
      requires Inv(null) && Conserved() && (Searches(kind, noSearch) ==> name != [])
      modifies `nInflight, `nWaiting, `members, `accepted, inflight, waiting, ring`head, ring`at, ring`good
      modifies ring.members`state, ring.members`failedTimes, ring.members`probeTimer
      modifies ring.members`choked, ring.members`writeWaiting
      modifies inflight.items`next, inflight.items`prev, waiting.items`next, waiting.items`prev, inflight.items`ns
      ensures Inv(null) && Conserved()
      ensures r == if Encodable(old(FirstOf(kind, name, noSearch)).name) then 0 else 1
      ensures r == 0 ==>
        && req != null && fresh(req) && members == old(members) + {req}
        && IsTry(req, old(FirstOf(kind, name, noSearch)), kind, lookup, search, name,
          old(StoryOf(kind, name, noSearch)))
      ensures r == 0 ==> accepted == old(accepted) + multiset{lookup}
      ensures r == 0 ==>
        Queued(old(inflight.items), old(waiting.items), inflight.items, waiting.items, req, old(WouldFly()))
      ensures r == 1 ==> NothingDone()
      ensures fresh(members - old(members))
      ensures ring.Up() <= old(ring.Up())
      ensures Uncounted(old(Counters()), Counters())
    {
      hide Inv, Accounted, Queued, Encodable, FirstOf, StoryOf, NameserverRing.Up, Uncounted, Counters;
      var made := IssueFirst(kind, name, noSearch, lookup);
      if made == null {
        OnlyDowns();
        return 1, null;
      }
      Accept(made, old(inflight.items), old(waiting.items), old(WouldFly()));
      OnlyDowns();
      return 0, made;
    }

    ghost method SetAccepted(acc: multiset<nat>)
      requires Inv(null)
      modifies `accepted
      ensures Inv(null) && accepted == acc
    {
      hide *;
      accepted := acc;
    }

    /** The lookup of a request that was just put on a list is now owed to its caller. */
    ghost method Accept(req: Request, f: seq<Request>, w: seq<Request>, flies: bool)
      requires Inv(null) && Accounted(accepted, f, w, delivered)
      requires Queued(f, w, inflight.items, waiting.items, req, flies)
      modifies `accepted
      ensures Inv(null) && Conserved() && accepted == old(accepted) + LookupOf(req)
    {
      var more := AccountedQueued(accepted, f, w, delivered, inflight.items, waiting.items, req, flies);
      SetAccepted(more);
    }

    /** What follows the try that `req` is, in its search. */
    ghost function NextOf(req: Request): Option<Try>
      reads `states, states, req`search, req`searchIndex, req`origName
    {
      if req.search == null || req.search !in states || req.origName == [] || req.searchIndex < -1 then None
      else NextTry(req.origName, req.search.ndots, Texts(req.search.domains), req.searchIndex)
    }

    /** The story goes on with the next name. */
    ghost function NextStory(req: Request, t: Try, sends: nat): Story {
      req.story.(names := req.story.names + [t.name], spent := req.story.spent + sends)
    }

    /** A request on the wire was not sent more often than the limits allow. */
    lemma WithinWhole(req: Request)
      requires Flying(req)
      ensures req.sends <= Whole()
    {
      hide Asking, Carries, Affordable;
      BudgetStep(req.reissueCount, maxRetransmits);
      BudgetGrows(req.reissueCount + 1, maxReissues + 1, maxRetransmits);
      BudgetStep(suspensions, Cap());
    }

    /** What follows a try is the first of the names that are left. */
    lemma NextIs(req: Request)
      requires NextOf(req).Some?
      ensures var t := NextOf(req).value;
        && req.search != null && req.search in states && req.origName != []
        && (t.index.Some? ==> 0 <= t.index.value < |req.search.domains|)
        && Left(req) == [t.name] + LeftAfter(t, req.search, req.origName)
    {
      hide WithDomain, Dots;
    }

    lemma NextOnPlan(req: Request)
      requires SearchLists() && Searchable(req) && NextOf(req).Some? && Flying(req)
      ensures var t := NextOf(req).value;
        && Tryable(t, req.kind, req.search, req.origName, NextStory(req, t, req.sends))
        && Left(req) == [t.name] + LeftAfter(t, req.search, req.origName)
    {
      hide Flying, Affordable, NextOf, Left, LeftAfter, Candidates;
      var t := NextOf(req).value;
      NextAffordable(req, t);
      NextIs(req);
      assert req.story.names + ([t.name] + LeftAfter(t, req.search, req.origName))
          == req.story.names + [t.name] + LeftAfter(t, req.search, req.origName);
    }

    lemma NextAffordable(req: Request, t: Try)
      requires Flying(req)
      ensures Affordable(req.story) && Affordable(NextStory(req, t, req.sends))
    {
      hide Asking, Carries;
      WithinWhole(req);
      BudgetStep(|req.story.names| - 1, Whole());
    }

    /** The choice search_try_next makes. */
    method ChooseNext(req: Request) returns (t: Option<Try>)
      requires Inv(null) && req in inflight.items
      ensures t == NextOf(req)
      ensures t.Some? ==>
        && Tryable(t.value, req.kind, req.search, req.origName, NextStory(req, t.value, req.sends))
        && req.callback.User?
    {
      hide Lists, Wire, RestTries, OnPlan, Flying, Affordable;
      assert Searchable(req);
      FlyingFacts(req);
      if req.search == null { return None; }
      if NextOf(req).Some? { NextOnPlan(req); }
      var index := req.searchIndex + 1;
      if index >= req.search.numDomains {
        var dots := StringNumDots(req.origName);
        return if dots < req.search.ndots then Some(Try(req.origName, None)) else None;
      }
      var newName := req.search.MakeNew(index, req.origName);
      return Some(Try(newName, Some(index)));
    }

    /** `next` is the request for what follows `req` in its search, when `t` was that. */
    ghost predicate Succeeds(next: Request, req: Request, t: Option<Try>)
      reads next`search, next`searchIndex, next`origName, req`search, req`origName, req`sends
    {
      && t.Some? && req.callback.User?
      && IsTry(next, t.value, req.kind, req.callback.lookup, req.search, req.origName,
        NextStory(req, t.value, req.sends))
    }

    /**
     * search_try_next: 0 if a request for the next name of the search was submitted, 1 if there is none
     * or no packet can be built for it.
     */
    method SearchTryNext(req: Request) returns (r: int, ghost next: Request?)
      requires Inv(null) && req in inflight.items
      modifies `nInflight, `nWaiting, `members, inflight, waiting, ring`head, ring`at, ring`good
      modifies ring.members`state, ring.members`failedTimes, ring.members`probeTimer
      modifies ring.members`choked, ring.members`writeWaiting
      modifies inflight.items`next, inflight.items`prev, waiting.items`next, waiting.items`prev, inflight.items`ns
      ensures Inv(null)
      ensures r == if old(NextOf(req)).Some? && Encodable(old(NextOf(req)).value.name) then 0 else 1
      ensures r == 0 ==> next != null && fresh(next) && members == old(members) + {next}
      ensures r == 0 ==> Succeeds(next, req, old(NextOf(req)))
      ensures r == 0 ==>
        Queued(old(inflight.items), old(waiting.items), inflight.items, waiting.items, next, old(WouldFly()))
      ensures r == 1 ==> NothingDone()
      ensures ring.Up() <= old(ring.Up())
    {
      hide Inv, Tryable, IsTry, NextOf, NextStory, Queued, Encodable, WouldFly, NameserverRing.Up;
      var t := ChooseNext(req);
      if t.None? { return 1, null; }
      var made := Issue(t.value, req.kind, req.callback.lookup, req.search, req.origName,
        NextStory(req, t.value, req.sends));
      return if made == null then 1 else 0, made;
    }

    // -------------------------------------------------------------- replies

    method Reissue(req: Request) returns (r: int)
      requires Inv(null) && req in inflight.items && req.reissueCount < maxReissues
      modifies ring`head, ring`at, req`ns, req`reissueCount, req`txCount, req`transmitMe
      ensures Inv(null) && r in {0, 1}
      ensures req.ns == old(ring.Next()) && (r == 1 <==> req.ns == old(req.ns))
      ensures r == 0 ==> req.reissueCount == old(req.reissueCount) + 1 && req.txCount == 0 && req.transmitMe
      ensures ring.good > 0 ==> AtUpServer(req)
    {
      hide Left, OnPlan, RestTries, Asking, Carries;
      r := RequestReissue(req);
    }

    /**
     * Whether `req` would be reissued if its server called it a bad request now.  With no other server up
     * it goes to the next one on the ring, if that is another.  Otherwise it goes to one that is up; but a
     * request that was not sent yet has moved already when its server went down, and the choice falls on
     * the server it moved to again if the requests that moved from it on make full turns.
     */
    ghost predicate WillReissue(req: Request)
      reads ring, ring.members`state, inflight`items, inflight.items`ns, inflight.items`txCount
      reads req`ns, req`txCount
    {
      && req.ns != null && req.ns in ring.members && ring.at < |ring.order|
      && var others := ring.Up() - {req.ns};
      if others == {} then ring.order[After(ring.at, |ring.order|)] != req.ns
      else req.txCount == 0 && req.ns.state ==> !Multiple(UnsentFrom(inflight.items, req, req.ns), |others|)
    }

    /** The choice after the failure of `ns`, with the head at `at` before. */
    lemma ChoiceAfterFailure(req: Request, ns: Nameserver, moved: bool, at: nat, m: nat)
      requires ring.Valid() && ring.order != [] && ns in ring.members && !ns.state && at < |ring.order|
      requires ring.Up() == {} ==> ring.at == at
      requires if moved then ring.PickedAgo(req.ns, m) else req.ns == ns
      ensures ring.Up() == {} ==> !moved && ring.Next() == ring.order[After(at, |ring.order|)]
      ensures ring.Up() != {} ==> (ring.Next() == req.ns <==> moved && Multiple(m, |ring.Up()|))
    {
      hide PlaceAfter, UnsentFrom;
      if moved {
        ring.PickedAgain(req.ns, m);
      } else if ring.Up() != {} {
        SomeUpIsFound(ring.order, ring.at, ring.Up(), ring.members);
      }
    }

    lemma RingFacts(req: Request)
      requires Inv(null) && req in inflight.items
      ensures ring.Valid() && ring.order != [] && ring.at < |ring.order| && req.ns != null && req.ns in ring.members
      ensures ring.good == |ring.Up()|
    {
      assert Flying(req);
    }

    /** The server called this a bad request, or refused it: we regard it as down and try another. */
    method TryElsewhere(req: Request) returns (reissued: bool)
      requires Inv(null) && req in inflight.items && req.reissueCount < maxReissues
      modifies ring`head, ring`at, ring`good, inflight.items`ns
      modifies ring.members`state, ring.members`failedTimes, ring.members`probeTimer
      modifies ring.members`choked, ring.members`writeWaiting
      modifies req`reissueCount, req`txCount, req`transmitMe
      ensures Inv(null) && (reissued <==> old(WillReissue(req)))
      ensures reissued ==> req.reissueCount == old(req.reissueCount) + 1 && req.txCount == 0 && req.transmitMe
      ensures reissued && ring.good > 0 ==> AtUpServer(req) && req.ns != old(req.ns)
      ensures ring.Up() == old(ring.Up()) - {old(req.ns)}
    {
      hide Inv, NameserverRing.Valid, NameserverRing.PickedAgo, NameserverRing.Next, UnsentFrom, Multiple, Conserved,
           Settled;
      RingFacts(req);
      ghost var moved := FailServer(req.ns, null, req);
      RingFacts(req);
      ghost var m := old(UnsentFrom(inflight.items, req, req.ns));
      ChoiceAfterFailure(req, old(req.ns), moved && old(req.txCount) == 0, old(ring.at), m);
      var r := Reissue(req);
      reissued := r == 0;
    }

    /** `next` stands for the lookup of `req` and the rest of its search, `left`, of which it is the first. */
    ghost predicate TakesOver(next: Request, req: Request, t: Option<Try>, left: seq<seq<Byte>>, sends: nat)
      reads `states, states, next`search, next`searchIndex, next`origName
    {
      && t.Some? && req.callback.User? && next.callback == req.callback && next.kind == req.kind
      && next.name == t.value.name && next.story == NextStory(req, t.value, sends)
      && left == [next.name] + Left(next)
    }

    lemma SuccessorTakesOver(next: Request, req: Request, t: Try, left: seq<seq<Byte>>)
      requires Succeeds(next, req, Some(t)) && left == [t.name] + LeftAfter(t, req.search, req.origName)
      requires t.index.Some? ==> -1 <= t.index.value
      ensures TakesOver(next, req, Some(t), left, req.sends) && LookupOf(next) == LookupOf(req)
    {
      hide RestTries;
    }

    lemma LeftFacts(req: Request)
      requires Inv(null) && req in inflight.items && NextOf(req).Some?
      ensures var t := NextOf(req).value;
        && Left(req) == [t.name] + LeftAfter(t, req.search, req.origName) && (t.index.Some? ==> -1 <= t.index.value)
    {
      hide Lists, Wire, OnPlan;
      assert Searchable(req);
      FlyingFacts(req);
      NextOnPlan(req);
    }

    /** The next name of the search is on its way: the request is done, without a word to its caller. */
    method HandOn(req: Request) returns (handed: bool, ghost next: Request?)
      requires Inv(null) && Conserved() && req in inflight.items
      modifies `nInflight, `nWaiting, `members, inflight, waiting, ring`head, ring`at, ring`good
      modifies ring.members`state, ring.members`failedTimes, ring.members`probeTimer
      modifies ring.members`choked, ring.members`writeWaiting
      modifies inflight.items`next, inflight.items`prev, waiting.items`next, waiting.items`prev, inflight.items`ns
      ensures Inv(null)
      ensures handed <==> old(NextOf(req)).Some? && Encodable(old(NextOf(req)).value.name)
      ensures handed ==>
        && next != null && fresh(next) && req in inflight.items && Overpaid(req)
        && members == old(members) + {next}
      ensures handed ==> TakesOver(next, req, old(NextOf(req)), old(Left(req)), old(req.sends))
      ensures handed ==>
        Queued(old(inflight.items), old(waiting.items), inflight.items, waiting.items, next, old(WouldFly()))
      ensures !handed ==> Conserved() && unchanged(inflight, waiting, `members)
      ensures !handed ==> RingKept() && ring.Up() == old(ring.Up())
      ensures ring.Up() <= old(ring.Up())
    {
      hide Inv, NextOf, NextStory, Left, LeftAfter, TakesOver, Encodable, WouldFly, IsTry, Succeeds, Accounted,
           LookupOf, NameserverRing.Up;
      if NextOf(req).Some? { LeftFacts(req); }
      var r, made := SearchTryNext(req);
      handed, next := r == 0, made;
      if handed {
        ghost var more := AccountedQueued(accepted, old(inflight.items), old(waiting.items), delivered,
                                          inflight.items, waiting.items, made, old(WouldFly()));
        SuccessorTakesOver(made, req, old(NextOf(req)).value, old(Left(req)));
      }
    }

    /** The caller hears the answer, and its server is fine. */
    method TellGood(req: Request, outcome: Outcome)
      requires Inv(null) && Conserved() && req in inflight.items
      modifies `delivered, ring`good, ring.members`state, ring.members`failedTimes
      modifies ring.members`probeTimer, ring.members`timedout
      ensures Inv(req) && ProberTold(req) && Overpaid(req) && Records(old(delivered), delivered, req, outcome)
      ensures req.ns != null && ring.Up() == old(ring.Up()) + Vouched(req, outcome) + {req.ns}
      ensures Uncounted(old(Counters()), Counters())
    {
      hide RequestList.Valid, NameserverRing.Valid, SearchState.Valid, Nameserver.Sound, Apart, Lookups, Conserved,
           Settled, NameserverRing.Up, Vouched, Uncounted, Counters, Asking, Carries, Searchable, Affordable;
      ghost var a := Counters();
      CounterFacts();
      Tell(req, outcome, null);
      ghost var b := Counters();
      CounterFacts();
      assert Flying(req);
      RaiseServer(req.ns, req);
      CountersSince(a, b);
      InvFor(req);
    }

    /** What a step leaves behind that told `req` the outcome, `f` on the wire and `w` waiting before. */
    ghost predicate ToldAndGone(req: Request, outcome: Outcome, f: seq<Request>, w: seq<Request>, ds: seq<Delivery>)
      reads `delivered, inflight`items, waiting`items
    {
      Records(ds, delivered, req, outcome) && Replaced(f, w, req, inflight.items, waiting.items)
    }

    lemma TellAgain(req: Request, outcome: Outcome, f: seq<Request>, w: seq<Request>, ds: seq<Delivery>)
      requires Records(ds, delivered, req, outcome) && Replaced(f, w, req, inflight.items, waiting.items)
      ensures ToldAndGone(req, outcome, f, w, ds)
    {
    }

    /** The rest, once the caller was told. */
    method FinishTold(req: Request, ghost outcome: Outcome, ghost ds: seq<Delivery>)
      requires Inv(req) && req in inflight.items && ProberTold(req) && Overpaid(req)
      requires Records(ds, delivered, req, outcome)
      modifies `nInflight, `nWaiting, inflight, waiting, ring`head, ring`at, ring`good
      modifies ring.members`state, ring.members`failedTimes, ring.members`probeTimer
      modifies ring.members`choked, ring.members`writeWaiting
      modifies members`next, members`prev, members`ns, members`transId, members`packet
      modifies members`transmitMe, members`txCount, members`timer, members`sends, req`search
      ensures Inv(null) && Settled() && Conserved()
      ensures old(waiting.items) == [] ==> RingKept() && ring.Up() == old(ring.Up())
      ensures ToldAndGone(req, outcome, old(inflight.items), old(waiting.items), ds)
      ensures ring.Up() <= old(ring.Up())
      ensures Uncounted(old(Counters()), Counters())
      ensures Counters().count == old(Counters().count)
    {
      hide *;
      FinishPaid(req);
      OnlyDowns();
      TellAgain(req, outcome, old(inflight.items), old(waiting.items), ds);
    }

    /** An answer: the caller is told, the server is fine. */
    method Succeed(req: Request, outcome: Outcome)
      requires Inv(null) && Conserved() && req in inflight.items
      modifies `nInflight, `nWaiting, `delivered, inflight, waiting, ring`head, ring`at, ring`good, ring.members
      modifies members`next, members`prev, members`ns, members`transId, members`packet
      modifies members`transmitMe, members`txCount, members`timer, members`sends, req`search
      ensures Inv(null) && Conserved() && Settled()
      ensures ToldAndGone(req, outcome, old(inflight.items), old(waiting.items), old(delivered))
      ensures old(req.ns) != null
      ensures ring.Up() <= old(ring.Up()) + Vouched(req, outcome) + {old(req.ns)}
      ensures old(waiting.items) == [] ==> ring.Up() == old(ring.Up()) + Vouched(req, outcome) + {old(req.ns)}
      ensures Uncounted(old(Counters()), Counters())
    {
      hide *;
      ghost var a := Counters();
      CounterFacts();
      TellGood(req, outcome);
      ghost var b := Counters();
      CounterFacts();
      FinishTold(req, outcome, old(delivered));
      CountersSince(a, b);
    }

    /** All else failed: the caller is told of the error. */
    method Fail(req: Request, code: nat)
      requires Inv(req) && Conserved() && req in inflight.items
      modifies `nInflight, `nWaiting, `delivered, inflight, waiting, ring`head, ring`at, ring`good, ring.members
      modifies members`next, members`prev, members`ns, members`transId, members`packet
      modifies members`transmitMe, members`txCount, members`timer, members`sends, req`search
      ensures Inv(null) && Conserved() && Settled()
      ensures req.callback.User? && old(waiting.items) == [] ==> RingKept()
      ensures ToldAndGone(req, Error(code), old(inflight.items), old(waiting.items), old(delivered))
      ensures ring.Up() <= old(ring.Up()) + Vouched(req, Error(code))
      ensures old(waiting.items) == [] ==> ring.Up() == old(ring.Up()) + Vouched(req, Error(code))
      ensures Uncounted(old(Counters()), Counters())
      ensures Vouched(req, Error(code)) == {} ==> Counters().count == old(Counters().count)
    {
      hide Inv, Conserved, Settled, ToldAndGone, ProberTold, Overpaid, Records, Replaced, Vouched, NameserverRing.Up,
           Uncounted, Counters;
      ghost var a := Counters();
      CounterFacts();
      Tell(req, Error(code), req);
      ghost var b := Counters();
      CounterFacts();
      FinishTold(req, Error(code), old(delivered));
      CountersSince(a, b);
    }

    method FinishHanded(req: Request)
      requires Inv(null) && req in inflight.items && req.callback.User? && Overpaid(req)
      modifies `nInflight, `nWaiting, inflight, waiting, ring`head, ring`at, ring`good
      modifies ring.members`state, ring.members`failedTimes, ring.members`probeTimer
      modifies ring.members`choked, ring.members`writeWaiting
      modifies members`next, members`prev, members`ns, members`transId, members`packet
      modifies members`transmitMe, members`txCount, members`timer, members`sends, req`search
      ensures Inv(null) && Settled() && Conserved()
      ensures ring.Up() <= old(ring.Up())
    {
      hide *;
      InvFor(req);
      FinishPaid(req);
    }

    /** The search goes on with its next name, if it has one: then `req` is done. */
    method SearchOn(req: Request) returns (handed: bool, ghost next: Request?)
      requires Inv(null) && Conserved() && req in inflight.items
      modifies `nInflight, `nWaiting, `members, inflight, waiting, ring`head, ring`at, ring`good
      modifies ring.members`state, ring.members`failedTimes, ring.members`probeTimer
      modifies ring.members`choked, ring.members`writeWaiting
      modifies members`next, members`prev, members`ns, members`transId, members`packet
      modifies members`transmitMe, members`txCount, members`timer, members`sends, req`search
      ensures Inv(null) && Conserved()
      ensures handed <==> old(NextOf(req)).Some? && Encodable(old(NextOf(req)).value.name)
      ensures handed ==> Settled() && next != null && fresh(next) && members == old(members) + {next}
      ensures handed ==> TakesOver(next, req, old(NextOf(req)), old(Left(req)), old(req.sends))
      ensures !handed ==> req in inflight.items && unchanged(inflight, waiting, `members)
      ensures !handed ==> RingKept() && ring.Up() == old(ring.Up())
      ensures ring.Up() <= old(ring.Up())
      ensures Uncounted(old(Counters()), Counters())
    {
      hide *;
      ListsFacts();
      var r, made := HandOn(req);
      handed, next := r, made;
      if handed {
        Taken(made, req, old(NextOf(req)), old(Left(req)), old(req.sends));
        FinishHanded(req);
      }
      OnlyDowns();
    }

    lemma Taken(next: Request, req: Request, t: Option<Try>, left: seq<seq<Byte>>, sends: nat)
      requires TakesOver(next, req, t, left, sends)
      ensures req.callback.User?
    {
    }

    /** The request found nothing: the search goes on, or its caller is told. */
    method GiveUp(req: Request, code: nat) returns (ghost did: Handled)
      requires Inv(null) && Conserved() && req in inflight.items
      modifies `nInflight, `nWaiting, `members, `delivered, inflight, waiting, ring`head, ring`at, ring`good
      modifies ring.members
      modifies members`next, members`prev, members`ns, members`transId, members`packet
      modifies members`transmitMe, members`txCount, members`timer, members`sends, req`search
      ensures Inv(null) && Conserved() && Settled()
      ensures did == Told(Error(code)) || did.HandedOn?
      ensures did.HandedOn? <==> old(NextOf(req)).Some? && Encodable(old(NextOf(req)).value.name)
      ensures did.HandedOn? ==> delivered == old(delivered) && fresh(did.next) && did.next in members
      ensures did.HandedOn? ==> TakesOver(did.next, req, old(NextOf(req)), old(Left(req)), old(req.sends))
      ensures did.Told? ==> ToldAndGone(req, Error(code), old(inflight.items), old(waiting.items), old(delivered))
      ensures ring.Up() <= old(ring.Up()) + if did.Told? then Vouched(req, Error(code)) else {}
      ensures did.Told? && old(waiting.items) == [] ==> ring.Up() == old(ring.Up()) + Vouched(req, Error(code))
      ensures old(members) <= members && fresh(members - old(members))
      ensures Uncounted(old(Counters()), Counters())
    {
      hide Inv, Conserved, Settled, ToldAndGone, TakesOver, NextOf, Left, Encodable, NameserverRing.Up, Vouched,
           Uncounted, Counters;
      ghost var a := Counters();
      CounterFacts();
      var handed, next := SearchOn(req);
      if handed { return HandedOn(next); }
      ghost var b := Counters();
      CounterFacts();
      InvFor(req);
      Fail(req, code);
      CountersSince(a, b);
      return Told(Error(code));
    }

    /** What the caller is told of a reply, by its response code and whether it was cut off. */
    ghost function Verdict(flags: nat, ttl: nat, reply: Option<Reply>): Outcome {
      if Truncated(flags) then Error(65)
      else if 1 <= Rcode(flags) <= 5 then Error(Rcode(flags))
      else if Rcode(flags) == 0 && reply.Some? && reply.value.haveAnswer then Answer(ttl, reply.value.records)
      else Error(66)
    }

    /** The reply says that its server is of no use. */
    ghost predicate Useless(flags: nat) {
      !Truncated(flags) && Rcode(flags) in {4, 5}
    }

    /** `r` heard from a server as `did` says. */
    ghost predicate OutcomeFits(flags: nat, ttl: nat, reply: Option<Reply>, did: Handled) {
      match did
      case Reissued => Useless(flags)
      case HandedOn(_) => Verdict(flags, ttl, reply).Error?
      case Told(outcome) => outcome == Verdict(flags, ttl, reply)
    }

    /** The request is due again, as after its first sending. */
    ghost predicate Again(req: Request, reissues: nat)
      reads req`reissueCount, req`txCount, req`transmitMe
    {
      req.reissueCount == reissues + 1 && req.txCount == 0 && req.transmitMe
    }

    /** What an error of a server says about the server itself; true if the request was reissued. */
    method JudgeServer(req: Request, code: nat) returns (reissued: bool)
      requires Inv(null) && req in inflight.items
      modifies ring`head, ring`at, ring`good, ring.members, inflight.items`ns
      modifies req`reissueCount, req`txCount, req`transmitMe
      ensures Inv(null)
      ensures reissued <==> BadServer(code) && old(req.reissueCount) < maxReissues && old(WillReissue(req))
      ensures reissued ==> Again(req, old(req.reissueCount))
      ensures reissued && ring.good > 0 ==> AtUpServer(req) && req.ns != old(req.ns)
      ensures BadServer(code) && old(req.reissueCount) < maxReissues ==> ring.Up() == old(ring.Up()) - {old(req.ns)}
      ensures BadServer(code) && old(req.reissueCount) >= maxReissues ==> ring.Up() == old(ring.Up())
      ensures !BadServer(code) && code != ERR_SERVERFAILED ==> ring.Up() == old(ring.Up()) + {old(req.ns)}
      ensures code == ERR_SERVERFAILED ==> ring.Up() == old(ring.Up())
      ensures ring.Up() == old(Judged(req, code))
      ensures Uncounted(old(Counters()), Counters())
    {
      hide Inv, NameserverRing.Valid, NameserverRing.Up, Conserved, Settled, WillReissue, Uncounted, Counters;
      RingFacts(req);
      reissued := false;
      if BadServer(code) {
        if req.reissueCount < maxReissues {
          reissued := TryElsewhere(req);
        }
        OnlyDowns();
      } else if code != ERR_SERVERFAILED {
        RaiseServer(req.ns, req);
      } else {
        OnlyDowns();
      }
    }

    /** The servers that are up once the error has spoken for its server or against it. */
    ghost function Judged(req: Request, code: nat): set<Nameserver>
      reads ring`members, ring.members`state, req`ns, req`reissueCount
    {
      if req.ns == null || code == ERR_SERVERFAILED then ring.Up()
      else if !BadServer(code) then ring.Up() + {req.ns}
      else if req.reissueCount < maxReissues then ring.Up() - {req.ns}
      else ring.Up()
    }

    /**
     * The same for a reply, by its response code: 4 and 5 speak against the server while reissues are left, 2 leaves
     * it as it is, and all others speak for it, those of replies that were cut off included.
     */
    ghost function Reported(req: Request, flags: nat): set<Nameserver>
      reads ring`members, ring.members`state, req`ns, req`reissueCount
    {
      if req.ns == null then ring.Up()
      else if Truncated(flags) || Rcode(flags) !in {2, 4, 5} then ring.Up() + {req.ns}
      else if Rcode(flags) != 2 && req.reissueCount < maxReissues then ring.Up() - {req.ns}
      else ring.Up()
    }

    /** The code by which the source goes says the same. */
    lemma ReportedIs(req: Request, flags: nat, ttl: nat, reply: Option<Reply>)
      requires req.ns != null
      ensures if IsFailure(flags, reply)
              then Reported(req, flags) == Judged(req, ErrorOf(flags))
                && Verdict(flags, ttl, reply) == Error(ErrorOf(flags))
              else Reported(req, flags) == ring.Up() + {req.ns}
                   && Verdict(flags, ttl, reply) == Answer(ttl, reply.value.records)
      ensures IsFailure(flags, reply) && BadServer(ErrorOf(flags)) <==> Useless(flags)
    {
      hide NameserverRing.Up;
    }

    /** The server that a probe brings up besides. */
    ghost function BroughtUp(req: Request, did: Handled): set<Nameserver> {
      if did.Told? then Vouched(req, did.outcome) else {}
    }

    /** reply_handle */
    method ReplyHandle(req: Request, flags: nat, ttl: nat, reply: Option<Reply>) returns (ghost did: Handled)
      requires Inv(null) && Conserved() && req in inflight.items
      modifies `nInflight, `nWaiting, `members, `delivered, inflight, waiting, ring`head, ring`at, ring`good
      modifies ring.members
      modifies members`next, members`prev, members`ns, members`transId, members`packet
      modifies members`transmitMe, members`txCount, members`timer, members`sends, req`search, req`reissueCount
      ensures Inv(null) && Conserved() && (old(Settled()) ==> Settled())
      ensures OutcomeFits(flags, ttl, reply, did)
      ensures did.Told? ==> ToldAndGone(req, did.outcome, old(inflight.items), old(waiting.items), old(delivered))
      ensures did.HandedOn? ==> delivered == old(delivered) && fresh(did.next) && did.next in members
      ensures did.HandedOn? ==> TakesOver(did.next, req, old(NextOf(req)), old(Left(req)), old(req.sends))
      ensures did.HandedOn? ==> Below(EffortOf(did.next), old(EffortOf(req)))
      ensures did.Told? && did.outcome.Error? ==> old(NextOf(req)).None? || !Encodable(old(NextOf(req)).value.name)
      ensures did.Reissued? <==> Useless(flags) && old(req.reissueCount) < maxReissues && old(WillReissue(req))
      ensures did.Reissued? ==> delivered == old(delivered) && unchanged(inflight, waiting)
      ensures did.Reissued? ==> Again(req, old(req.reissueCount)) && Below(EffortOf(req), old(EffortOf(req)))
      ensures did.Reissued? && old(ring.Up()) - {old(req.ns)} != {} ==> AtUpServer(req) && req.ns != old(req.ns)
      ensures ring.Up() <= old(Reported(req, flags)) + BroughtUp(req, did)
      ensures did.Reissued? || (did.Told? && old(waiting.items) == []) ==>
        ring.Up() == old(Reported(req, flags)) + BroughtUp(req, did)
      ensures old(members) <= members && fresh(members - old(members))
      ensures Uncounted(old(Counters()), Counters())
    {
      hide Inv, Conserved, Settled, ToldAndGone, TakesOver, NextOf, ErrorOf, BadServer, IsFailure, Encodable,
           WillReissue,
           Left, NextStory, Judged, Reported, Verdict, Useless, NameserverRing.Up, Vouched, AtUpServer, Again, Below,
             EffortOf, Uncounted, Counters;
      FlyingFacts(req);
      ReportedIs(req, flags, ttl, reply);
      if IsFailure(flags, reply) {
        did := Reject(req, ErrorOf(flags));
      } else {
        Succeed(req, Answer(ttl, reply.value.records));
        did := Told(Answer(ttl, reply.value.records));
      }
    }

    /** The part of it for an error. */
    method Reject(req: Request, code: nat) returns (ghost did: Handled)
      requires Inv(null) && Conserved() && req in inflight.items
      modifies `nInflight, `nWaiting, `members, `delivered, inflight, waiting, ring`head, ring`at, ring`good
      modifies ring.members
      modifies members`next, members`prev, members`ns, members`transId, members`packet
      modifies members`transmitMe, members`txCount, members`timer, members`sends, req`search, req`reissueCount
      ensures Inv(null) && Conserved() && (old(Settled()) ==> Settled())
      ensures did.Told? ==> did.outcome == Error(code)
      ensures did.Told? ==> ToldAndGone(req, Error(code), old(inflight.items), old(waiting.items), old(delivered))
      ensures did.HandedOn? ==> delivered == old(delivered) && fresh(did.next) && did.next in members
      ensures did.HandedOn? ==> TakesOver(did.next, req, old(NextOf(req)), old(Left(req)), old(req.sends))
      ensures did.HandedOn? ==> Below(EffortOf(did.next), old(EffortOf(req)))
      ensures did.Told? ==> old(NextOf(req)).None? || !Encodable(old(NextOf(req)).value.name)
      ensures did.Reissued? <==> BadServer(code) && old(req.reissueCount) < maxReissues && old(WillReissue(req))
      ensures did.Reissued? ==> delivered == old(delivered) && unchanged(inflight, waiting)
      ensures did.Reissued? ==> Again(req, old(req.reissueCount)) && Below(EffortOf(req), old(EffortOf(req)))
      ensures did.Reissued? && old(ring.Up()) - {old(req.ns)} != {} ==> AtUpServer(req) && req.ns != old(req.ns)
      ensures ring.Up() <= old(Judged(req, code)) + BroughtUp(req, did)
      ensures did.Reissued? || (did.Told? && old(waiting.items) == []) ==>
        ring.Up() == old(Judged(req, code)) + BroughtUp(req, did)
      ensures old(members) <= members && fresh(members - old(members))
      ensures Uncounted(old(Counters()), Counters())
    {
      hide Inv, Conserved, Settled, ToldAndGone, NextOf, Encodable, WillReissue, Left, NextStory, Judged,
           NameserverRing.Up, Vouched, TakesOver, Below, Again, Uncounted, Counters;
      ListsFacts();
      ghost var left, effort, reissues, a := Left(req), EffortOf(req), req.reissueCount, Counters();
      CounterFacts();
      var reissued := JudgeServer(req, code);
      if reissued {
        if ring.Up() != {} { GoodIfUp(); }
        LessAgain(req, reissues, effort);
        return Reissued;
      }
      ghost var b := Counters();
      CounterFacts();
      NoVoucherFor(req, code);
      did := GiveUp(req, code);
      CountersSince(a, b);
      if did.HandedOn? { LessLeft(did.next, req, old(NextOf(req)), left, old(req.sends), effort); }
    }

    lemma NoVoucherFor(req: Request, code: nat)
      ensures BadServer(code) ==> Vouched(req, Error(code)) == {}
    {
    }

    lemma LessLeft(next: Request, req: Request, t: Option<Try>, left: seq<seq<Byte>>, sends: nat, effort: Effort)
      requires TakesOver(next, req, t, left, sends) && effort.names == |left|
      ensures Below(EffortOf(next), effort)
    {
    }

    lemma LessAgain(req: Request, reissues: nat, effort: Effort)
      requires Again(req, reissues) && effort.names == |Left(req)| && effort.reissues == maxReissues - reissues
      ensures Below(EffortOf(req), effort)
    {
    }

    /** What `ReplyHandle` promises; `up` are the servers that were up then, and those that the reply spoke for. */
    ghost predicate Handles(req: Request, flags: nat, ttl: nat, reply: Option<Reply>, did: Handled, next: Option<Try>,
                            left: seq<seq<Byte>>, sends: nat, up: set<Nameserver>,
                            f: seq<Request>, w: seq<Request>, ds: seq<Delivery>)
      reads `states, states, `members, `delivered, inflight`items, waiting`items, ring`members, ring.members`state
      reads req`txCount, req`transmitMe, if did.HandedOn? then {did.next} else {}
    {
      && OutcomeFits(flags, ttl, reply, did) && ring.Up() <= up + BroughtUp(req, did)
      && (did.Reissued? || (did.Told? && w == []) ==> ring.Up() == up + BroughtUp(req, did))
      && match did
         case Reissued => delivered == ds && inflight.items == f && waiting.items == w && req.txCount == 0
           && req.transmitMe
         case HandedOn(next') => delivered == ds && TakesOver(next', req, next, left, sends) && next' in members
         case Told(outcome) => ToldAndGone(req, outcome, f, w, ds)
    }

    /** reply_parse for a packet that is an answer: it goes to the request with its id, if there is one. */
    method AnswerArrives(transId: nat, flags: nat, ttl: nat, reply: Option<Reply>)
      returns (req: Request?, ghost did: Handled)
      requires Inv(null) && Conserved()
      modifies `nInflight, `nWaiting, `members, `delivered
      modifies inflight, waiting, ring`head, ring`at, ring`good, ring.members, members
      ensures Inv(null) && Conserved() && (old(Settled()) ==> Settled()) && old(delivered) <= delivered
      ensures req == old(FirstWith(inflight.items, transId))
      ensures if req == null then unchanged(inflight, waiting, `delivered) && ring.Up() == old(ring.Up())
              else Handles(req, flags, ttl, reply, did, old(NextOf(req)), old(Left(req)), old(req.sends),
                           old(Reported(req, flags)), old(inflight.items), old(waiting.items), old(delivered))
      ensures old(members) <= members && fresh(members - old(members))
      ensures Uncounted(old(Counters()), Counters())
    {
      hide Inv, Conserved, Settled, FirstWith, NextOf, Left, NextStory, EffortOf, Below, WillReissue, OutcomeFits,
           Records, Replaced, Reported, BroughtUp, NameserverRing.Up, Uncounted, Counters;
      ListsFacts();
      req := RequestFindFromTransId(transId);
      did := Reissued;
      if req == null {
        OnlyDowns();
      } else {
        did := ReplyHandle(req, flags, ttl, reply);
        if did.Told? { ToldLonger(req, did.outcome, old(inflight.items), old(waiting.items), old(delivered)); }
      }
    }

    lemma ToldLonger(req: Request, outcome: Outcome, f: seq<Request>, w: seq<Request>, ds: seq<Delivery>)
      requires ToldAndGone(req, outcome, f, w, ds)
      ensures ds <= delivered
    {
    }

    /** A packet read from the socket of `ns`; one that is not an answer is ignored. */
    method PacketArrives(ns: Nameserver, transId: nat, isAnswer: bool, flags: nat, ttl: nat, reply: Option<Reply>)
      returns (req: Request?, ghost did: Handled)
      requires Inv(null) && Conserved() && ns in ring.members
      modifies `nInflight, `nWaiting, `members, `delivered
      modifies inflight, waiting, ring`head, ring`at, ring`good, ring.members, members
      ensures Inv(null) && Conserved() && (old(Settled()) ==> Settled()) && old(delivered) <= delivered
      ensures req == if isAnswer then old(FirstWith(inflight.items, transId)) else null
      ensures if req == null then unchanged(inflight, waiting, `delivered) && ring.Up() == old(ring.Up())
              else Handles(req, flags, ttl, reply, did, old(NextOf(req)), old(Left(req)), old(req.sends),
                           old(Reported(req, flags)), old(inflight.items), old(waiting.items), old(delivered))
      ensures old(members) <= members && fresh(members - old(members))
      ensures ns.timedout == 0 && Uncounted(old(Expecting(null, ns)), Counters())
    {
      hide *;
      HearFrom(ns);
      req, did := null, Reissued;
      ghost var a := Counters();
      CountOf(ns);
      if isAnswer {
        req, did := AnswerArrives(transId, flags, ttl, reply);
      } else {
        NothingCounted();
      }
      CountOf(ns);
      StaysCleared(a, ns);
    }

    lemma NothingCounted()
      ensures Uncounted(Counters(), Counters())
    {
    }

    lemma StaysCleared(a: Counter, ns: Nameserver)
      requires Uncounted(a, Counters()) && ns in a.count && a.count[ns] == 0 && ns in Counters().count
      ensures Counters().count[ns] == 0
    {
    }

    method HearFrom(ns: Nameserver)
      requires Inv(null) && ns in ring.members
      modifies ns`timedout
      ensures Inv(null) && ns.timedout == 0
      ensures Counters() == old(Expecting(null, ns))
    {
      hide Asking, Carries;
      ns.timedout := 0;
    }

    // -------------------------------------------------------------- timeouts

    /** The servers that are up once the timeout of `req` was counted. */
    ghost function Overdue(req: Request): set<Nameserver>
      reads ring`members, ring.members, req`ns
    {
      if req.ns == null || req.ns !in ring.members || req.ns.timedout + 1 <= maxTimeouts then ring.Up()
      else ring.Up() - {req.ns}
    }

    /** A request timed out at `ns`: too many in a row mean the server is down. */
    method CountTimeout(req: Request)
      requires Inv(null) && req in inflight.items
      modifies ring`head, ring`at, ring`good, ring.members, inflight.items`ns
      ensures Inv(null)
      ensures if old(req.ns.timedout) + 1 > maxTimeouts then ring.Up() == old(ring.Up()) - {old(req.ns)}
              else ring.Up() == old(ring.Up())
      ensures ring.Up() == old(Overdue(req))
      ensures old(req.ns).timedout == if old(req.ns.timedout) + 1 > maxTimeouts then 0 else old(req.ns.timedout) + 1
      ensures Counters() == old(Expecting(req.ns, null))
    {
      hide *;
      FlyingFacts(req);
      OverdueIs(req);
      var ns := req.ns;
      BumpTimeouts(ns);
      if ns.timedout > maxTimeouts {
        HearFrom(ns);
        ghost var _ := FailServer(ns, null, null);
      }
      CountedAs(ns);
    }

    twostate lemma CountedAs(ns: Nameserver)
      requires ring.members == old(ring.members) && ns in ring.members
      requires forall s :: s in ring.members && s != ns ==> s.timedout == old(s.timedout)
      requires ns.timedout == if old(ns.timedout) + 1 > maxTimeouts then 0 else old(ns.timedout) + 1
      requires ring.Up() == if old(ns.timedout) + 1 > maxTimeouts then old(ring.Up()) - {ns} else old(ring.Up())
      ensures Counters() == old(Expecting(ns, null))
    {
      hide NameserverRing.Up;
    }

    lemma OverdueIsUp(req: Request)
      ensures req.ns != null ==> Overdue(req) == Expecting(req.ns, null).up
      ensures Counters().up == ring.Up()
    {
    }

    lemma OverdueIs(req: Request)
      requires req.ns != null && req.ns in ring.members
      ensures Overdue(req) == if req.ns.timedout + 1 > maxTimeouts then ring.Up() - {req.ns} else ring.Up()
    {
    }

    method BumpTimeouts(ns: Nameserver)
      requires Inv(null) && ns in ring.members
      modifies ns`timedout
      ensures Inv(null) && ns.timedout == old(ns.timedout) + 1
    {
      hide Asking, Carries;
      ns.timedout := ns.timedout + 1;
    }

    method StopTimer(req: Request)
      requires Inv(null) && req in inflight.items
      modifies req`timer
      ensures Inv(req) && !req.timer
    {
      hide Asking, Carries;
      InvFor(req);
      req.timer := false;
    }

    /** Sent too often: the request has failed; otherwise it is sent again. */
    method RetryOrFail(req: Request)
      requires Inv(req) && Conserved() && req in inflight.items
      modifies `nInflight, `nWaiting, `delivered, inflight, waiting, ring`head, ring`at, ring`good, ring.members
      modifies members`next, members`prev, members`ns, members`transId, members`packet
      modifies members`transmitMe, members`txCount, members`timer, members`sends, req`search
      ensures Inv(null) && Conserved() && (old(Settled()) ==> Settled()) && old(delivered) <= delivered
      ensures old(req.txCount) >= maxRetransmits ==>
        ToldAndGone(req, Error(67), old(inflight.items), old(waiting.items), old(delivered))
      ensures old(req.txCount) < maxRetransmits ==> delivered == old(delivered) && unchanged(inflight, waiting)
      ensures old(req.txCount) < maxRetransmits ==> SentOrDue(req, old(EffortOf(req)))
      ensures ring.Up() <= old(ring.Up())
      ensures old(req.txCount) >= maxRetransmits && old(waiting.items) == [] ==> ring.Up() == old(ring.Up())
      ensures Uncounted(old(Counters()), Counters()) && Counters().count == old(Counters().count)
    {
      hide Inv, Left, Conserved, Settled, ToldAndGone, Records, Replaced, NameserverRing.Up, Vouched, Uncounted,
           Counters;
      NoVoucher(req);
      ListedFor(req);
      if req.txCount >= maxRetransmits {
        Fail(req, ERR_TIMEOUT);
        ToldLonger(req, Error(ERR_TIMEOUT), old(inflight.items), old(waiting.items), old(delivered));
      } else {
        SendNew(req);
        OnlyDowns();
      }
    }

    lemma NoVoucher(req: Request)
      ensures Vouched(req, Error(67)) == {}
    {
    }

    /** evdns_request_timeout_callback */
    method TimeoutCallback(req: Request)
      requires Inv(null) && Conserved() && req in inflight.items && req.timer
      modifies `nInflight, `nWaiting, `delivered, inflight, waiting, ring`head, ring`at, ring`good, ring.members
      modifies members`next, members`prev, members`ns, members`transId, members`packet
      modifies members`transmitMe, members`txCount, members`timer, members`sends, req`search
      ensures Inv(null) && Conserved() && (old(Settled()) ==> Settled()) && old(delivered) <= delivered
      ensures old(req.txCount) >= maxRetransmits ==>
        ToldAndGone(req, Error(67), old(inflight.items), old(waiting.items), old(delivered))
      ensures old(req.txCount) < maxRetransmits ==> delivered == old(delivered) && unchanged(inflight, waiting)
      ensures old(req.txCount) < maxRetransmits ==> SentOrDue(req, old(EffortOf(req)))
      ensures ring.Up() <= old(Overdue(req))
      ensures old(req.txCount) >= maxRetransmits && old(waiting.items) == [] ==> ring.Up() == old(Overdue(req))
      ensures old(req.ns) != null
        && old(req.ns).timedout == if old(req.ns.timedout) + 1 > maxTimeouts then 0 else old(req.ns.timedout) + 1
      ensures Uncounted(old(Expecting(req.ns, null)), Counters())
    {
      hide Inv, Left, Settled, Conserved, ToldAndGone, SentOrDue, EffortOf, Overdue, NameserverRing.Up, Uncounted,
           Counters, Expecting;
      ListsFacts();
      ghost var ns := TimedOut(req);
      RetryOrFail(req);
      CountOf(ns);
    }

    /** The timeout is counted, and the timer is off. */
    method TimedOut(req: Request) returns (ghost ns: Nameserver)
      requires Inv(null) && req in inflight.items
      modifies ring`head, ring`at, ring`good, ring.members, inflight.items`ns, req`timer
      ensures Inv(req) && ring.Up() == old(Overdue(req)) && Counters() == old(Expecting(req.ns, null))
      ensures ns == old(req.ns) && ns in ring.members && ns in Counters().count
      ensures Counters().count[ns] == if old(req.ns.timedout) + 1 > maxTimeouts then 0 else old(req.ns.timedout) + 1
    {
      hide *;
      FlyingFacts(req);
      ns := req.ns;
      CountTimeout(req);
      StopTimer(req);
      CountOf(ns);
    }

    lemma CountOf(ns: Nameserver)
      requires ns in ring.members
      ensures ns in Counters().count && Counters().count[ns] == ns.timedout
    {
    }

    // -------------------------------------------------------------- sockets

    /** The socket of `ns` has room again: it is watched no longer exactly if nothing was due. */
    method Writable(ns: Nameserver)
      requires Inv(null) && ns in ring.members
      modifies ring`head, ring`at, ring`good
      modifies ring.members`state, ring.members`failedTimes, ring.members`probeTimer
      modifies ring.members`choked, ring.members`writeWaiting
      modifies inflight.items`ns, inflight.items`transmitMe, inflight.items`txCount, inflight.items`timer
      modifies inflight.items`sends
      ensures Inv(null) && forall r :: r in inflight.items ==> Tried(r) && (r.transmitMe ==> Congestion())
      ensures if exists r :: r in inflight.items && old(r.transmitMe) then old(ns.writeWaiting) ==> ns.writeWaiting
              else !ns.choked && !ns.writeWaiting
      ensures ring.Up() <= old(ring.Up())
      ensures Uncounted(old(Counters()), Counters())
    {
      hide Inv, Congestion, NameserverRing.Up, Uncounted, Counters;
      Unchoke(ns);
      var tried := SendDue(if ns.writeWaiting then {ns} else {});
      if !tried { StopWatching(ns); }
      OnlyDowns();
    }

    method Unchoke(ns: Nameserver)
      requires Inv(null) && ns in ring.members
      modifies ns`choked
      ensures Inv(null) && !ns.choked
    {
      hide Asking, Carries;
      ns.choked := false;
    }

    /** With nothing left to send, no request depends on the socket any more. */
    method StopWatching(ns: Nameserver)
      requires Inv(null) && ns in ring.members && !ns.choked
      requires forall r :: r in inflight.items ==> !r.transmitMe
      modifies ns`writeWaiting
      ensures Inv(null) && !ns.writeWaiting
    {
      NameserverWriteWaiting(ns, false);
    }

    // -------------------------------------------------------------- probes

    /** The request of nameserver_send_probe: for this server and no other. */
    method NewProbe(ns: Nameserver) returns (req: Request)
      requires Inv(null) && ns in ring.members
      modifies ring`head, ring`at
      ensures Inv(null) && fresh(req) && Loose(req) && Submittable(req) && req.ns == ns && req.callback == Probe(ns)
    {
      hide Lists, Wire, Aside, Encodable, PROBE_NAME, Carries, Searchable, NameserverRing.Next;
      ProbeNameIsEncodable();
      ListsFacts();
      WireFacts();
      var made := RequestNew(PROBE_NAME, A, Probe(ns), Story(PROBE_NAME, [PROBE_NAME], [PROBE_NAME], null, 0, 0));
      req := made;
      Redirect(req, ns);
    }

    /** A probe is sent past the limit: it gets an id and its server, whatever request_new gave it. */
    method Redirect(req: Request, ns: Nameserver)
      requires Inv(null) && Loose(req) && Newborn(req, req.name, req.kind, Probe(ns), req.story) && ns in ring.members
      requires Affordable(req.story)
      modifies req`transId, req`packet, req`ns
      ensures Inv(null) && Submittable(req) && req.ns == ns
    {
      hide Lists, Aside, NameserverRing.Valid, ServersSound, Live, DownProbed, Asking, Apart;
      ListsFacts();
      WireFacts();
      var id := TransactionIdPick();
      Carried(req);
      RequestTransIdSet(req, id);
      req.ns := ns;
    }

    lemma Carried(req: Request)
      requires Carries(req)
      ensures Asking(req)
    {
    }

    method SubmitProbe(ns: Nameserver) returns (req: Request)
      requires Inv(null) && ns in ring.members
      modifies `nInflight, `nWaiting, `members, inflight, waiting, ring`head, ring`at, ring`good
      modifies ring.members`state, ring.members`failedTimes, ring.members`probeTimer
      modifies ring.members`choked, ring.members`writeWaiting
      modifies inflight.items`next, inflight.items`prev, waiting.items`next, waiting.items`prev, inflight.items`ns
      ensures Inv(null) && fresh(req) && req.callback == Probe(ns) && members == old(members) + {req}
      ensures Queued(old(inflight.items), old(waiting.items), inflight.items, waiting.items, req, true)
      ensures ring.Up() <= old(ring.Up())
    {
      hide *;
      req := NewProbe(ns);
      RequestSubmit(req);
    }

    /** nameserver_send_probe: straight to the wire, whatever the limit. */
    method NameserverSendProbe(ns: Nameserver) returns (ghost req: Request)
      requires Inv(null) && Conserved() && ns in ring.members
      modifies `nInflight, `nWaiting, `members, inflight, waiting, ring`head, ring`at, ring`good
      modifies ring.members`state, ring.members`failedTimes, ring.members`probeTimer
      modifies ring.members`choked, ring.members`writeWaiting
      modifies inflight.items`next, inflight.items`prev, waiting.items`next, waiting.items`prev, inflight.items`ns
      ensures Inv(null) && Conserved() && fresh(req) && req.callback == Probe(ns) && members == old(members) + {req}
      ensures inflight.items == old(inflight.items) + [req] && waiting.items == old(waiting.items)
      ensures ring.Up() <= old(ring.Up())
    {
      req := SubmitProbe(ns);
      ghost var same := AccountedQueued(accepted, old(inflight.items), old(waiting.items), delivered,
                                        inflight.items, waiting.items, req, true);
      assert same == accepted;
    }

    /** A probe of `ns` came to the wire, behind `f`. */
    ghost predicate ProbedLast(ns: Nameserver, f: seq<Request>)
      reads inflight`items
    {
      && |inflight.items| == |f| + 1 && inflight.items[..|f|] == f
      && inflight.items[|f|].callback == Probe(ns)
    }

    /**
     * nameserver_prod_callback: the probe timer of `ns` fired.  (The event loop took the timer off before;
     * nothing looks at it in between, so it is struck off here once the probe is under way.)
     */
    method ProdCallback(ns: Nameserver)
      requires Inv(null) && Conserved() && ns in ring.members && ns.probeTimer.Some?
      modifies `nInflight, `nWaiting, `members, inflight, waiting, ring`head, ring`at, ring`good
      modifies ring.members`state, ring.members`failedTimes, ring.members`probeTimer
      modifies ring.members`choked, ring.members`writeWaiting
      modifies inflight.items`next, inflight.items`prev, waiting.items`next, waiting.items`prev, inflight.items`ns
      ensures Inv(null) && Conserved() && (old(Settled()) ==> Settled())
      ensures ProbeIn(inflight.items, ns) && ProbedLast(ns, old(inflight.items)) && waiting.items == old(waiting.items)
      ensures ns.probeTimer == None
      ensures fresh(members - old(members))
      ensures ring.Up() <= old(ring.Up())
    {
      hide Inv, Conserved, NameserverRing.Up;
      ListsFacts();
      ghost var req := NameserverSendProbe(ns);
      ListsFacts();
      assert req in inflight.items;
      StrikeTimer(ns);
    }

    method StrikeTimer(ns: Nameserver)
      requires Inv(null) && ns in ring.members && ProbeIn(inflight.items, ns)
      modifies ns`probeTimer
      ensures Inv(null) && ns.probeTimer == None
    {
      hide Asking, Carries;
      ns.probeTimer := None;
    }

    // -------------------------------------------------------------- suspend and resume

    /** It is as if the request had never been sent. */
    method Unsend(req: Request)
      requires req.sends <= Spent() && Asking(req) && Affordable(req.story)
      modifies req`txCount, req`reissueCount, req`ns, req`timer, req`transId, req`transmitMe
      ensures req.transId == 0 && (req.callback.User? ==> Parked(req))
    {
      req.txCount, req.reissueCount := 0, 0;
      req.ns := null;
      req.timer := false;
      req.transId := 0;
      req.transmitMe := false;
    }

    /** One step of the suspension: the request starts over, at the front of those that wait. */
    method ParkInFront(req: Request)
      requires waiting.Valid() && req !in waiting.items && req.sends <= Spent() && Asking(req) && Affordable(req.story)
      modifies `nWaiting, waiting, waiting.items`next, waiting.items`prev, req`next, req`prev
      modifies req`txCount, req`reissueCount, req`ns, req`timer, req`transId, req`transmitMe
      ensures waiting.Valid() && waiting.items == [req] + old(waiting.items) && nWaiting == old(nWaiting) + 1
      ensures req.transId == 0 && (req.callback.User? ==> Parked(req))
    {
      hide Parked, Asking, Affordable, Spent, RequestList.Valid, NoRepeats;
      ghost var w := waiting.items;
      assert (w + [req])[..|w|] == w;
      Unsend(req);
      nWaiting := nWaiting + 1;
      waiting.Insert(req);
      waiting.StepBack();
    }

    /** Fit to be parked: a caller's, and sent no more often than the suspensions allow. */
    ghost predicate Parkable(f: seq<Request>)
      reads `suspensions, f`sends, f`packet
    {
      forall r :: r in f ==> r.callback.User? && r.sends <= Spent() && Asking(r) && Affordable(r.story)
    }

    /** `f` was on the wire and `w` waited; the first `i` of `f` are parked, the others still linked as a ring. */
    ghost predicate Parking(f: seq<Request>, w: seq<Request>, i: nat)
      reads `nWaiting, `members, `suspensions, waiting, waiting.items`next, waiting.items`prev, f`next
      reads waiting.items`ns, waiting.items`txCount, waiting.items`reissueCount, waiting.items`transmitMe
      reads waiting.items`timer, waiting.items`sends, waiting.items`packet, f`packet
    {
      && i <= |f|
      && waiting.Valid() && waiting.items == Reverse(f[..i]) + w && nWaiting == |waiting.items|
      && AllParked(waiting.items)
      && (forall r :: r in waiting.items ==> r in members)
      && (forall k {:trigger f[k].next} :: i <= k < |f| ==> f[k].next == f[if k + 1 == |f| then 0 else k + 1])
      && (forall k :: i <= k < |f| ==> f[k] !in waiting.items)
    }

    method ParkStep(req: Request, ghost f: seq<Request>, ghost w: seq<Request>, ghost i: nat)
      requires Parking(f, w, i) && i < |f| && req == f[i] && NoRepeats(f) && req in members && Parkable(f)
      modifies `nWaiting, waiting, waiting.items`next, waiting.items`prev, req`next, req`prev
      modifies req`txCount, req`reissueCount, req`ns, req`timer, req`transId, req`transmitMe
      ensures Parking(f, w, i + 1) && Parkable(f)
    {
      hide Spent, Asking, Carries;
      ReverseNext(f, i);
      ParkInFront(req);
    }

    /**
     * The walk of evdns_clear_nameservers_and_suspend over the requests on the wire: each goes to the
     * front of the waiting list, which rewrites the links of the ring being walked behind the walker.
     */
    method ParkRing(ghost f: seq<Request>, ghost w: seq<Request>)
      requires Lists() && AllParked(waiting.items) && Parkable(inflight.items)
      requires f == inflight.items && w == waiting.items
      modifies `nWaiting, waiting
      modifies members`next, members`prev, members`txCount, members`reissueCount, members`ns, members`timer
      modifies members`transId, members`transmitMe
      ensures Parking(f, w, |f|)
    {
      hide Spent, Parked, Asking, Carries;
      var req, started := inflight.head, inflight.head;
      ghost var i: nat := 0;
      assert f[..0] == [] && Parking(f, w, 0);
      while req != null
        invariant forall r :: r in f ==> r in members
        invariant Parking(f, w, i) && Parkable(f) && (if req != null then i < |f| && req == f[i] else i == |f|)
        decreases |f| - i
      {
        var next := req.next;
        assert req in f && req in members;
        ParkStep(req, f, w, i);
        i := i + 1;
        if next == started { break; }
        req := next;
      }
    }

    method ParkAll()
      requires Lists() && AllParked(waiting.items) && Parkable(inflight.items)
      modifies `nInflight, `nWaiting, inflight, waiting
      modifies members`next, members`prev, members`txCount, members`reissueCount, members`ns, members`timer
      modifies members`transId, members`transmitMe
      ensures Lists() && AllParked(waiting.items) && inflight.items == []
      ensures waiting.items == Reverse(old(inflight.items)) + old(waiting.items)
    {
      hide Parked, Reverse;
      ghost var f, w := inflight.items, waiting.items;
      ParkRing(f, w);
      assert f[..|f|] == f;
      inflight.head, inflight.items := null, [];
      nInflight := 0;
    }

    lemma ParkedAside(f: seq<Request>, w: seq<Request>)
      requires SearchLists() && AllSearchable(f) && AllSearchable(w) && AllParked(Reverse(f) + w)
      ensures Aside([], Reverse(f) + w)
    {
      hide Searchable, Parked, SearchLists;
      forall r | r in Reverse(f) + w ensures Searchable(r) {
        if r in Reverse(f) { InReverse(f, r); }
      }
    }

    /**
     * evdns_clear_nameservers_and_suspend: no server is left, and everything that was on the wire waits, the
     * latest first, in front of what waited before, to start over.  Without a server nothing happens.
     */
    method Suspend()
      requires Inv(null) && Conserved() && forall r :: r in inflight.items ==> r.callback.User?
      modifies `nInflight, `nWaiting, `suspensions, inflight, waiting, ring
      modifies members`next, members`prev, members`txCount, members`reissueCount, members`ns, members`timer
      modifies members`transId, members`transmitMe
      ensures Inv(null) && Conserved() && ring.order == [] && ring.members == {}
      ensures inflight.items == [] && waiting.items == Reverse(old(inflight.items)) + old(waiting.items)
      ensures suspensions == old(suspensions) + if old(ring.order) == [] then 0 else 1
    {
      hide RequestList.Valid, NameserverRing.Valid, SearchState.Valid, Apart, Lookups, Parked, Searchable, Flying,
           Live, DownProbed;
      if ring.head == null {
        NoServers();
        return;
      }
      SomeServers();
      CountSuspension();
      ring.Clear();
      ParkBehind();
    }

    lemma SomeServers()
      requires Inv(null) && ring.head != null
      ensures ring.order != []
    {
    }

    /** The budget of every request grows by what it may have used. */
    ghost method CountSuspension()
      requires Inv(null) && forall r :: r in inflight.items ==> r.callback.User?
      modifies `suspensions
      ensures Inv(null) && Parkable(inflight.items) && suspensions == old(suspensions) + 1
    {
      hide Lists, SearchLists, Searchable, ServersSound, Live, DownProbed, NameserverRing.Valid, Budget, Asking;
      forall r | r in inflight.items ensures r.sends <= Whole() { WithinWhole(r); }
      BudgetStep(suspensions, Cap());
      BudgetStep(suspensions + 1, Cap());
      forall n: nat { BudgetGrowsEach(n, Whole(), Budget(suspensions + 2, Cap())); }
      suspensions := suspensions + 1;
    }

    lemma NoServers()
      requires Inv(null) && ring.head == null
      ensures ring.order == [] && ring.members == {}
      ensures inflight.items == [] && Reverse(inflight.items) + waiting.items == waiting.items
    {
      WireHasServers(inflight.items, null);
      assert Reverse(inflight.items) == [];
    }

    /** Everything on the wire is parked, now that there is no server. */
    method ParkBehind()
      requires Lists() && Aside(inflight.items, waiting.items) && Conserved() && Parkable(inflight.items)
      requires ring.Valid() && ring.order == [] && 1 <= maxInflight && 1 <= maxRetransmits
      modifies `nInflight, `nWaiting, inflight, waiting
      modifies members`next, members`prev, members`txCount, members`reissueCount, members`ns, members`timer
      modifies members`transId, members`transmitMe
      ensures Inv(null) && Conserved()
      ensures inflight.items == [] && waiting.items == Reverse(old(inflight.items)) + old(waiting.items)
    {
      hide RequestList.Valid, SearchState.Valid, NameserverRing.Valid, Apart, Lookups, Parked, Searchable, Spent,
           Asking, Carries, Accounted, Wire;
      ghost var f, w := inflight.items, waiting.items;
      ParkAll();
      WireWithoutServers();
      ParkedAside(f, w);
      AccountedParked(accepted, f, w, delivered);
    }

    lemma WireWithoutServers()
      requires ring.Valid() && ring.order == [] && 1 <= maxInflight && 1 <= maxRetransmits
      ensures Wire([], null)
    {
    }

    /** evdns_resume: what waits goes to the wire, which takes a server. */
    method Resume()
      requires Inv(null) && Conserved() && (waiting.items != [] ==> ring.order != [])
      modifies `nInflight, `nWaiting, inflight, waiting, ring`head, ring`at, ring`good
      modifies ring.members`state, ring.members`failedTimes, ring.members`probeTimer
      modifies ring.members`choked, ring.members`writeWaiting
      modifies members`next, members`prev, members`ns, members`transId, members`packet
      modifies members`transmitMe, members`txCount, members`timer, members`sends
      ensures Inv(null) && Conserved() && Settled() && forall r :: r in members ==> Counted(r)
      ensures forall r :: r in old(waiting.items) && r in inflight.items ==> SentOrFull(r, 0)
      ensures Promoted(old(inflight.items), old(waiting.items), Room(old(nInflight), |old(waiting.items)|),
        inflight.items, waiting.items)
      ensures ring.Up() <= old(ring.Up())
    {
      hide Inv, Settled, Accounted, Promoted, Room, SentOrFull, NameserverRing.Up;
      ghost var f, w, n := inflight.items, waiting.items, nInflight;
      Pump();
      AccountedPromoted(accepted, f, w, delivered, Room(n, |w|), inflight.items, waiting.items);
    }

    // -------------------------------------------------------------- configuration

    /** _evdns_nameserver_add_impl, when the socket can be had: 3 for an address that is known already. */
    method NameserverAdd(address: nat) returns (r: int, ghost ns: Nameserver?)
      requires Inv(null)
      modifies ring, ring.order`next, ring.order`prev
      ensures Inv(null)
      ensures r == if exists s :: s in old(ring.members) && s.address == address then 3 else 0
      ensures r == 3 ==> unchanged(ring)
      ensures r == 0 ==> ring.order != [] && ring.good == old(ring.good) + 1 && |ring.order| == |old(ring.order)| + 1
      ensures r == 0 ==> ns != null && fresh(ns) && ns.address == address && ns.state && ns.timedout == 0
      ensures r == 0 ==> ring.members == old(ring.members) + {ns} && ring.Up() == old(ring.Up()) + {ns}
      ensures fresh(ring.members - old(ring.members))
      ensures Uncounted(old(Counters()), Counters())
    {
      hide Inv, NameserverRing.Valid, NameserverRing.Up, Uncounted, Counters;
      RingIsValid();
      var unknown := ring.Unknown(address);
      if !unknown {
        NothingCounted();
        return 3, null;
      }
      ghost var a := Counters();
      CounterFacts();
      CounterValues();
      var server := new Nameserver(address);
      Enlist(server);
      NewServer(a, server);
      return 0, server;
    }

    method Enlist(ns: Nameserver)
      requires Inv(null) && ns !in ring.members && ns.state && ns.Sound()
      modifies ring, ring.order`next, ring.order`prev, ns`next, ns`prev
      ensures Inv(null) && ring.order != [] && ring.good == old(ring.good) + 1 && |ring.order| == |old(ring.order)| + 1
      ensures ring.members == old(ring.members) + {ns} && ring.Up() == old(ring.Up()) + {ns}
    {
      hide Lists, Aside, Wire, IsInserted, NameserverRing.Valid, NameserverRing.Up;
      RingIsValid();
      EnlistForWire(ns);
    }

    method EnlistForWire(ns: Nameserver)
      requires Wire(inflight.items, null) && ns !in ring.members && ns.state && ns.Sound()
      modifies ring, ring.order`next, ring.order`prev, ns`next, ns`prev
      ensures Wire(inflight.items, null) && ring.order != []
      ensures ring.good == old(ring.good) + 1 && |ring.order| == |old(ring.order)| + 1
      ensures ring.members == old(ring.members) + {ns} && ring.Up() == old(ring.Up()) + {ns}
    {
      hide AllFlying, IsInserted, NameserverRing.Valid, NameserverRing.Up, Live, DownProbed, ServersSound;
      ring.Add(ns);
      MoreServers(inflight.items, ns);
    }

    /** A server that is up harms nothing. */
    twostate lemma MoreServers(f: seq<Request>, new ns: Nameserver)
      requires old(Wire(f, null)) && ring.members == old(ring.members) + {ns} && ns.state && ns.Sound()
      requires forall s :: s in old(ring.members) ==>
        unchanged(s`state, s`probeTimer, s`choked, s`writeWaiting, s`failedTimes, s`timedout)
      requires forall r :: r in f ==> unchanged(r)
      requires suspensions == old(suspensions)
      ensures ServersSound() && AllFlying(f) && Live(f, null) && DownProbed(f)
    {
    }

    /**
     * evdns_search_add: the domain goes in front of the list in use, in place.  Lookups under way hold the same
     * list, so their searches are shifted (see `SearchDomains.AddedInMidSearch`).
     */
    method SearchAdd(domain: seq<Byte>)
      requires Inv(null)
      modifies `search, `states, `nodes, if search == null then {} else {search}
      ensures Inv(null) && search != null && old(states) <= states
      ensures if old(search) == null then fresh(search)
        else search == old(search) && search.edits == old(search.edits) + 1
      ensures Texts(search.domains) == [StripDots(domain)]
        + (if old(search) == null then [] else old(Texts(search.domains)))
      ensures search.ndots == if old(search) == null then 1 else old(search.ndots)
      ensures fresh(states - old(states))
    {
      hide *;
      SearchFacts();
      if search == null { SearchClear(); }
      SearchPush(domain);
    }

    method SearchPush(domain: seq<Byte>)
      requires Inv(null) && search != null
      modifies `nodes, search`numDomains, search`head, search`domains, search`edits
      ensures Inv(null) && Texts(search.domains) == [StripDots(domain)] + old(Texts(search.domains))
      ensures search.edits == old(search.edits) + 1
    {
      hide Lists, Wire, Parked, Searchable, SearchLists, Lookups;
      PushDomain(domain);
      StillSearchable(inflight.items);
      StillSearchable(waiting.items);
    }

    method PushDomain(domain: seq<Byte>)
      requires SearchLists() && search != null
      modifies `nodes, search`numDomains, search`head, search`domains, search`edits
      ensures SearchLists() && Texts(search.domains) == [StripDots(domain)] + old(Texts(search.domains))
      ensures search.edits == old(search.edits) + 1 && |search.domains| == |old(search.domains)| + 1
    {
      hide SearchState.Valid;
      assert search in states;
      search.PostfixAdd(domain);
      nodes := nodes + {search.domains[0]};
    }

    /** Every list is as it was, or was touched and did not get shorter: then no request leaves its plan. */
    twostate predicate ListsGrow()
      reads `states, states
    {
      old(states) <= states
      && forall st :: st in old(states) ==>
        unchanged(st) || (st.edits > old(st.edits) && |st.domains| >= |old(st.domains)|)
    }

    twostate lemma StillSearchable(l: seq<Request>)
      requires old(AllSearchable(l)) && ListsGrow()
      requires forall r :: r in l ==> unchanged(r`search, r`searchIndex, r`origName)
      ensures AllSearchable(l)
    {
      forall r | r in l ensures Searchable(r) { SearchableStill(r); }
    }

    twostate lemma SearchableStill(r: Request)
      requires old(Searchable(r)) && ListsGrow() && unchanged(r`search, r`searchIndex, r`origName)
      ensures Searchable(r)
    {
      hide RestTries;
    }

    method EmptySearch()
      requires SearchLists()
      modifies `search, `states
      ensures SearchLists() && search != null && fresh(search) && search.domains == [] && search.ndots == 1
      ensures states == old(states) + {search} && ListsGrow()
    {
      search := new SearchState();
      states := states + {search};
    }

    /** search_postfix_clear: lookups under way keep the list they started with. */
    method SearchClear()
      requires Inv(null)
      modifies `search, `states
      ensures Inv(null) && search != null && fresh(search) && search.domains == [] && search.ndots == 1
      ensures states == old(states) + {search}
    {
      hide Lists, Wire, Lookups, AllParked, AllSearchable, SearchLists, ListsGrow;
      EmptySearch();
      StillSearchable(inflight.items);
      StillSearchable(waiting.items);
    }

    /** evdns_search_ndots_set: in place as well (see `SearchDomains.NdotsInMidSearch`). */
    method NdotsSet(ndots: int)
      requires Inv(null)
      modifies `search, `states, if search == null then {} else {search}
      ensures Inv(null) && search != null && search.ndots == ndots && old(states) <= states
      ensures if old(search) == null then fresh(search)
        else search == old(search) && search.edits == old(search.edits) + 1
      ensures fresh(states - old(states))
    {
      hide *;
      SearchFacts();
      if search == null { SearchClear(); }
      SearchNdots(ndots);
    }

    method SearchNdots(ndots: int)
      requires Inv(null) && search != null
      modifies search`ndots, search`edits
      ensures Inv(null) && search.ndots == ndots && search.edits == old(search.edits) + 1
    {
      hide Lists, Wire, Parked, Searchable, Lookups;
      SearchFacts();
      search.SetNdots(ndots);
      StillSearchable(inflight.items);
      StillSearchable(waiting.items);
    }

    // -------------------------------------------------------------- what the invariants mean

    /** `r` is on a list, for this lookup. */
    ghost predicate Pends(r: Request, lookup: nat)
      reads inflight`items, waiting`items
    {
      (r in inflight.items || r in waiting.items) && r.callback == User(lookup)
    }

    /**
     * Main result on delivery: a lookup accepted under a pointer of its own either was told, and then
     * once and no request is left for it, or was not, and then exactly one request is on its way for it.
     */
    lemma ExactlyOnce(lookup: nat)
      requires Lists() && Conserved() && accepted[lookup] == 1
      ensures Heard(delivered, lookup) <==> !exists r :: Pends(r, lookup)
      ensures forall i, j :: 0 <= i < j < |delivered| ==> !(delivered[i].lookup == delivered[j].lookup == lookup)
      ensures forall r, q :: Pends(r, lookup) && Pends(q, lookup) ==> r == q
    {
      DeliveredCounts(delivered, lookup);
      LookupsCounts(inflight.items, lookup);
      LookupsCounts(waiting.items, lookup);
      if Wanted(inflight.items, lookup) {
        var r :| r in inflight.items && r.callback == User(lookup);
        assert Pends(r, lookup);
      } else if Wanted(waiting.items, lookup) {
        var r :| r in waiting.items && r.callback == User(lookup);
        assert Pends(r, lookup);
      }
    }

    /**
     * Main result on packets: what is sent for a request on the wire is the packet for its name and type, under
     * the id that its reply is matched by; number by number in network order it is a recursive query with one
     * question, for that type in the Internet class, and the question reads back as its name.
     */
    lemma PacketAsks(req: Request)
      requires Inv(null) && req in inflight.items
      ensures Build(req.name, req.transId, TypeOf(req.kind), CLASS_INET, RequestLen(|req.name|)) == Built(req.packet)
      ensures IsCString(req.name) ==>
        var p := ParseName(req.packet, HEADER, NAME_BUFFER);
        p.Good? && p.name == Join(Labels(req.name))
      ensures var b, n := req.packet, |req.packet|;
        && n >= 17 && Number(b, 0) == req.transId < 0xffff && Number(b, 2) == 0x0100 && Number(b, 4) == 1
        && Number(b, 6) == Number(b, 8) == Number(b, 10) == 0
        && Number(b, n - 4) == (match req.kind case A => 1 case Ptr => 12 case Aaaa => 28) && Number(b, n - 2) == 1
    {
      hide Asks, Build, Short, Number, ParseName, Join, Labels, IsCString, Inv;
      FlyingFacts(req);
      OtherIdentifier(req.name, TypeOf(req.kind), req.transId, req.packet);
      RequestReadsBack(req.name, req.transId, TypeOf(req.kind), CLASS_INET, RequestLen(|req.name|), req.packet);
      if IsCString(req.name) { RequestRoundTrip(req.name, req.transId, TypeOf(req.kind), CLASS_INET); }
    }

    /**
     * Main result on searches: while nobody touched the list that the lookup of `req` searches, the names of
     * its requests so far are the first of its candidates, in the order promised, as many as the place of `req`
     * in the search says, or all of them if no search goes on; so there are at most one more than domains.
     */
    lemma SearchFollowsOrder(req: Request)
      requires Inv(null) && (req in inflight.items || req in waiting.items) && req.callback.User?
      requires Untouched(req.story)
      ensures var story := req.story;
        && story.names <= story.plan && story.names[|story.names| - 1] == req.name
        && story.plan == (if story.list == null then [story.name]
                          else Candidates(story.name, story.list.ndots, Texts(story.list.domains)))
        && |story.plan| == (if story.list == null then 1 else story.list.numDomains + 1)
        && |story.names| == (if req.search == null then |story.plan|
                             else req.searchIndex + if Dots(story.name) >= req.search.ndots then 2 else 1)
      ensures NextOf(req).None? ==> req.story.names == req.story.plan
    {
      hide Lists, Wire, Dots, WithDomain, RestTries;
      assert Searchable(req);
      if req.search != null { RestIs(req.origName, req.search.ndots, Texts(req.search.domains), req.searchIndex); }
    }

    /**
     * Main result on effort for a lookup: all its requests so far together were sent at most once per candidate,
     * reissue and retransmission, anew after each suspension; and while nobody touched its list there are no
     * more candidates than domains and one.
     */
    lemma BoundedLookup(req: Request)
      requires Inv(null) && (req in inflight.items || req in waiting.items) && req.callback.User?
      ensures var each := (1 + suspensions) * ((1 + maxReissues) * maxRetransmits);
        && req.story.spent + req.sends <= |req.story.names| * each
        && (Untouched(req.story) ==> req.story.spent + req.sends <= |req.story.plan| * each)
    {
      hide Inv, Untouched, Whole;
      WholeIs();
      var n := LookupBudget(req);
      BudgetIsProduct(n, Whole());
      if Untouched(req.story) {
        SearchFollowsOrder(req);
        BudgetGrows(n, |req.story.plan|, Whole());
        BudgetIsProduct(|req.story.plan|, Whole());
      }
    }

    lemma WholeIs()
      ensures Whole() == (1 + suspensions) * ((1 + maxReissues) * maxRetransmits)
    {
      BudgetIsProduct(maxReissues + 1, maxRetransmits);
      BudgetIsProduct(suspensions + 1, Cap());
    }

    /** The sends of a lookup are within the budget of its `n` requests. */
    lemma LookupBudget(req: Request) returns (n: nat)
      requires Inv(null) && (req in inflight.items || req in waiting.items)
      ensures n == |req.story.names| && req.story.spent + req.sends <= Budget(n, Whole())
    {
      hide Asking, Carries, Searchable, OnPlan, Lists, Wire, Aside, Whole;
      n := |req.story.names|;
      WholeIs();
      BoundedEffort(req);
      OnListFacts(req);
      BudgetStep(n - 1, Whole());
    }

    lemma OnListFacts(req: Request)
      requires Inv(null) && (req in inflight.items || req in waiting.items)
      ensures Affordable(req.story)
    {
      assert if req in inflight.items then Flying(req) else Parked(req);
    }

    /** Main result on effort: no request is sent more often than the limits allow, anew after each suspension. */
    lemma BoundedEffort(req: Request)
      requires Inv(null) && (req in inflight.items || req in waiting.items)
      ensures req.sends <= (1 + suspensions) * ((1 + maxReissues) * maxRetransmits)
    {
      hide Asking, Carries;
      if req in inflight.items {
        FlyingFacts(req);
        BudgetStep(req.reissueCount, maxRetransmits);
        BudgetGrows(req.reissueCount + 1, maxReissues + 1, maxRetransmits);
      } else {
        assert Parked(req);
      }
      BudgetStep(suspensions, Cap());
      BudgetIsProduct(maxReissues + 1, maxRetransmits);
      BudgetIsProduct(suspensions + 1, Cap());
    }

    // -------------------------------------------------------------- runs

    ghost function ServerNo(k: nat): (ns: Nameserver?)
      reads ring
    {
      if ring.order == [] || ring.at >= |ring.order| then null else ring.order[Around(ring.at, k, |ring.order|)]
    }

    ghost function RequestNo(k: nat): (req: Request?)
      reads inflight
      ensures req != null ==> req in inflight.items
    {
      if inflight.items == [] then null else inflight.items[Around(0, k, |inflight.items|)]
    }

    /** The server `k` steps around the ring. */
    method ServerAt(k: nat) returns (ns: Nameserver)
      requires ring.Valid() && ring.head != null
      ensures ns in ring.members && ns == ServerNo(k)
    {
      ns := ring.head;
      for i := 0 to k
        invariant ring.order != [] && ns == ring.order[Around(ring.at, i, |ring.order|)]
      {
        AroundNext(ring.at, i, |ring.order|);
        ns := ns.next;
      }
    }

    /** The request `k` steps along the list of those on the wire. */
    method RequestAt(k: nat) returns (req: Request)
      requires inflight.Valid() && inflight.head != null
      ensures req in inflight.items && req == RequestNo(k)
    {
      req := inflight.head;
      for i := 0 to k
        invariant inflight.items != [] && req == inflight.items[Around(0, i, |inflight.items|)]
      {
        AroundNext(0, i, |inflight.items|);
        req := req.next;
      }
    }

    /** What holds after every step, if `settled` and `ds` are how things were before. */
    ghost predicate Kept(settled: bool, ds: seq<Delivery>)
      reads `nInflight, `nWaiting, `members, `search, `states, `nodes, `accepted, `delivered, `suspensions
      reads inflight, waiting, ring, ring.members, ring.order`next
      reads inflight.items, waiting.items, states, nodes`next
    {
      Inv(null) && Conserved() && (settled ==> Settled()) && ds <= delivered
    }

    /** The lookup that `input` makes the resolver accept: that of a request whose first name can be encoded. */
    ghost function Takes(input: Input): multiset<nat>
      reads `search, `states, `nodes, states, nodes`next
    {
      match input
      case Lookup(kind, name, noSearch, lookup) =>
        if SearchLists() && (Searches(kind, noSearch) ==> name != []) && Encodable(FirstOf(kind, name, noSearch).name)
        then multiset{lookup} else multiset{}
      case _ => multiset{}
    }

    twostate predicate JustQueued(new req: Request, lookup: nat)
      reads `nInflight, ring`order, inflight, waiting
    {
      && req.callback == User(lookup)
      && Queued(old(inflight.items), old(waiting.items), inflight.items, waiting.items, req, old(WouldFly()))
    }

    /** The server that a timeout counts against, if `input` is one. */
    ghost function LateAt(input: Input): (ns: Nameserver?)
      reads inflight, inflight.items`timer, inflight.items`ns
    {
      if !input.RequestTimer? || RequestNo(input.place) == null || !RequestNo(input.place).timer then null
      else RequestNo(input.place).ns
    }

    /** The server whose packet `input` is. */
    ghost function HeardAt(input: Input): (ns: Nameserver?)
      reads ring
    {
      if input.Packet? && ring.head != null then ServerNo(input.server) else null
    }

    /** A timeout is counted, a packet clears the count of its server, and nothing else does, but for a return. */
    twostate predicate Counting(input: Input)
      reads this, inflight, ring, ring.members
    {
      && Uncounted(old(Expecting(LateAt(input), HeardAt(input))), Counters())
      && (old(LateAt(input)) != null ==> Counters().up <= old(Expecting(LateAt(input), HeardAt(input))).up)
    }

    lemma NothingToCount(input: Input)
      requires !input.Packet? && !input.RequestTimer?
      ensures LateAt(input) == HeardAt(input) == null && Expecting(null, null) == Counters()
    {
      ExpectingFacts(null, null);
    }

    /** No list changed, no caller was told anything, and no server went up or down. */
    twostate predicate Silent()
      reads this, inflight, waiting, ring, ring.members
    {
      && inflight.items == old(inflight.items) && waiting.items == old(waiting.items)
      && delivered == old(delivered) && ring.Up() == old(ring.Up())
    }

    /** The reply to `req` had the outcome `did`, on the state before. */
    twostate predicate Had(req: Request, flags: nat, ttl: nat, reply: Option<Reply>, new did: Handled)
      reads this, inflight, waiting, ring, ring.members, states, req, if did.HandedOn? then {did.next} else {}
    {
      Handles(req, flags, ttl, reply, did, old(NextOf(req)), old(Left(req)), old(req.sends),
              old(Reported(req, flags)), old(inflight.items), old(waiting.items), old(delivered))
    }

    /** An answer goes to the first request with its id: it is reissued, told, or handed on to the next name. */
    twostate predicate PacketDoes(transId: nat, flags: nat, ttl: nat, reply: Option<Reply>)
      reads this, inflight, waiting, ring, ring.members, states, members
    {
      var req := old(FirstWith(inflight.items, transId));
      if req == null then Silent()
      else
        && req in members
        && (|| Had(req, flags, ttl, reply, Reissued)
            || Had(req, flags, ttl, reply, Told(Verdict(flags, ttl, reply)))
            || exists next :: next in members && Had(req, flags, ttl, reply, HandedOn(next)))
    }

    /** A request that was sent often enough is told of the timeout, any other is sent once more, or is due. */
    twostate predicate TimeoutDoes(req: Request)
      reads this, inflight, waiting, ring, ring.members, states, req
    {
      && ring.Up() <= old(Overdue(req))
      && if old(req.txCount) >= maxRetransmits
         then ToldAndGone(req, Error(67), old(inflight.items), old(waiting.items), old(delivered))
         else inflight.items == old(inflight.items) && waiting.items == old(waiting.items)
              && delivered == old(delivered) && SentOrDue(req, old(EffortOf(req)))
    }

    /** What was due is sent, and counted, or stays due while some socket is full; no server comes up. */
    twostate predicate RoomDoes(ns: Nameserver)
      reads this, inflight, waiting, ring, ring.members, members
    {
      && inflight.items == old(inflight.items) && waiting.items == old(waiting.items) && delivered == old(delivered)
      && ring.Up() <= old(ring.Up()) && ns in ring.members
      && (forall r :: r in old(inflight.items) ==> r in members && Tried(r) && (r.transmitMe ==> Congestion()))
      && ((forall r :: r in old(inflight.items) ==> !old(r.transmitMe)) ==> !ns.choked && !ns.writeWaiting)
    }

    /**
     * What `input`, by which the lookups `took` were accepted, does to the lists, the servers and the domains;
     * what comes from a server, or for one, does nothing if there is none.
     */
    twostate predicate Does(input: Input, took: multiset<nat>)
      reads this, inflight, waiting, ring, ring.members, search, states, members
    {
      match input
      case Lookup(_, _, _, lookup) =>
        delivered == old(delivered)
        && (if took == multiset{} then inflight.items == old(inflight.items) && waiting.items == old(waiting.items)
            else exists req :: req in members && JustQueued(req, lookup))
      case Packet(_, transId, isAnswer, flags, ttl, reply) =>
        if old(ring.head) == null || !isAnswer then Silent() else PacketDoes(transId, flags, ttl, reply)
      case RequestTimer(place) =>
        var req := old(RequestNo(place));
        if req == null || !old(req.timer) then Silent() else req in members && TimeoutDoes(req)
      case ProbeTimer(server) =>
        var ns := old(ServerNo(server));
        if ns == null || old(ns.probeTimer).None? then Silent()
        else ProbedLast(ns, old(inflight.items)) && waiting.items == old(waiting.items) && delivered == old(delivered)
             && ns in ring.members && ns.probeTimer == None
      case Room(server) =>
        var ns := old(ServerNo(server));
        if ns == null then Silent() else RoomDoes(ns)
      case ReadError(server) =>
        var ns := old(ServerNo(server));
        if ns == null then Silent()
        else ring.Up() == old(ring.Up()) - {ns} && inflight.items == old(inflight.items)
             && waiting.items == old(waiting.items) && delivered == old(delivered)
      case AddServer(address) =>
        && old(ring.members) <= ring.members && (exists s :: s in ring.members && s.address == address)
        && (forall s :: s in ring.members && s !in old(ring.members) ==> s.address == address && s.state)
        && delivered == old(delivered)
      case SuspendAll =>
        delivered == old(delivered)
        && ((forall r :: r in old(inflight.items) ==> r.callback.User?) ==>
              && ring.order == [] && inflight.items == []
              && waiting.items == Reverse(old(inflight.items)) + old(waiting.items))
      case ResumeAll =>
        delivered == old(delivered)
        && (old(ring.order != [] || waiting.items == []) ==>
              Promoted(old(inflight.items), old(waiting.items), Room(old(nInflight), |old(waiting.items)|),
                       inflight.items, waiting.items))
      case AddDomain(domain) =>
        && search != null && delivered == old(delivered)
        && Texts(search.domains)
           == [StripDots(domain)] + if old(search) == null then [] else old(Texts(search.domains))
      case ClearDomains => search != null && search.domains == [] && search.ndots == 1 && delivered == old(delivered)
      case SetNdots(ndots) => search != null && search.ndots == ndots && delivered == old(delivered)
    }

    method LookupStep(kind: Kind, name: seq<Byte>, noSearch: bool, lookup: nat)
      requires Inv(null) && Conserved()
      modifies `nInflight, `nWaiting, `members, `accepted, inflight, waiting, ring`head, ring`at, ring`good
      modifies ring.members`state, ring.members`failedTimes, ring.members`probeTimer
      modifies ring.members`choked, ring.members`writeWaiting
      modifies inflight.items`next, inflight.items`prev, waiting.items`next, waiting.items`prev, inflight.items`ns
      ensures Kept(old(Settled()) && ring.order != [], old(delivered))
      ensures accepted == old(accepted) + old(Takes(Lookup(kind, name, noSearch, lookup)))
      ensures Does(Lookup(kind, name, noSearch, lookup), old(Takes(Lookup(kind, name, noSearch, lookup))))
      ensures fresh(members - old(members))
      ensures Counting(Lookup(kind, name, noSearch, lookup))
    {
      hide Inv, Conserved, FirstOf, StoryOf, Encodable, SearchLists, Silent, PacketDoes, TimeoutDoes, RoomDoes,
           Uncounted, Counters, Expecting;
      NothingToCount(Lookup(kind, name, noSearch, lookup));
      SearchFacts();
      if Searches(kind, noSearch) && name == [] {
        OnlyDowns();
        return;
      }
      ListsFacts();
      var r, req := Resolve(kind, name, noSearch, lookup);
      ListsFacts();
    }

    method RequestTimerStep(place: nat)
      requires Inv(null) && Conserved()
      modifies `nInflight, `nWaiting, `delivered, inflight, waiting, ring`head, ring`at, ring`good, ring.members
      modifies members
      ensures Kept(old(Settled()), old(delivered)) && Does(RequestTimer(place), multiset{})
      ensures Counting(RequestTimer(place))
    {
      hide Inv, Conserved, Settled, SentOrDue, EffortOf, Replaced, Overdue, NameserverRing.Up, Uncounted, Counters,
           Expecting;
      ListsFacts();
      inflight.HeadFacts();
      ExpectingFacts(null, null);
      if inflight.head == null {
        OnlyDowns();
        return;
      }
      var req := RequestAt(place);
      OverdueIsUp(req);
      if req.timer {
        TimeoutCallback(req);
        CounterFacts();
      } else {
        OnlyDowns();
      }
    }

    method ProbeTimerStep(server: nat)
      requires Inv(null) && Conserved() && ring.head != null
      modifies `nInflight, `nWaiting, `members, inflight, waiting, ring`head, ring`at, ring`good
      modifies ring.members`state, ring.members`failedTimes, ring.members`probeTimer
      modifies ring.members`choked, ring.members`writeWaiting
      modifies inflight.items`next, inflight.items`prev, waiting.items`next, waiting.items`prev, inflight.items`ns
      ensures Kept(old(Settled()), old(delivered)) && Does(ProbeTimer(server), multiset{})
      ensures fresh(members - old(members))
      ensures Counting(ProbeTimer(server))
    {
      hide Inv, Conserved, Settled, NameserverRing.Valid, NameserverRing.Up, ProbedLast, Uncounted, Counters, Expecting;
      NothingToCount(ProbeTimer(server));
      RingIsValid();
      var ns := ServerAt(server);
      if ns.probeTimer.Some? { ProdCallback(ns); }
      OnlyDowns();
    }

    method RoomStep(server: nat)
      requires Inv(null) && Conserved() && ring.head != null
      modifies ring`head, ring`at, ring`good
      modifies ring.members`state, ring.members`failedTimes, ring.members`probeTimer
      modifies ring.members`choked, ring.members`writeWaiting
      modifies inflight.items`ns, inflight.items`transmitMe, inflight.items`txCount, inflight.items`timer
      modifies inflight.items`sends
      ensures Kept(old(Settled()), old(delivered)) && Does(Input.Room(server), multiset{})
      ensures Counting(Input.Room(server))
    {
      hide Inv, Conserved, Settled, NameserverRing.Valid, NameserverRing.Up, SentIfDue, Congestion,
           Uncounted, Counters, Expecting, Silent, PacketDoes, TimeoutDoes, ProbedLast, Promoted, Texts, JustQueued;
      NothingToCount(Input.Room(server));
      ListsFacts();
      RingIsValid();
      var ns := ServerAt(server);
      Writable(ns);
    }

    method ReadErrorStep(server: nat)
      requires Inv(null) && Conserved() && ring.head != null
      modifies ring`head, ring`at, ring`good, inflight.items`ns
      modifies ring.members`state, ring.members`failedTimes, ring.members`probeTimer
      modifies ring.members`choked, ring.members`writeWaiting
      ensures Kept(old(Settled()), old(delivered)) && Does(ReadError(server), multiset{})
      ensures Counting(ReadError(server))
    {
      hide Inv, Conserved, Settled, Placed, Unsent, UnsentFrom, NameserverRing.PickedAgo, NameserverRing.Valid,
           NameserverRing.Up, Uncounted, Counters, Expecting;
      NothingToCount(ReadError(server));
      RingIsValid();
      var ns := ServerAt(server);
      ghost var _ := FailServer(ns, null, null);
      OnlyDowns();
    }

    lemma HadOne(req: Request, flags: nat, ttl: nat, reply: Option<Reply>, did: Handled, next: Option<Try>,
                 left: seq<seq<Byte>>, sends: nat, up: set<Nameserver>,
                 f: seq<Request>, w: seq<Request>, ds: seq<Delivery>)
      requires Handles(req, flags, ttl, reply, did, next, left, sends, up, f, w, ds)
      ensures did == Reissued || did == Told(Verdict(flags, ttl, reply)) || (did.HandedOn? && did.next in members)
    {
    }

    method PacketStep(server: nat, transId: nat, isAnswer: bool, flags: nat, ttl: nat, reply: Option<Reply>)
      requires Inv(null) && Conserved() && ring.head != null
      modifies `nInflight, `nWaiting, `members, `delivered
      modifies inflight, waiting, ring`head, ring`at, ring`good, ring.members, members
      ensures Kept(old(Settled()), old(delivered))
        && Does(Packet(server, transId, isAnswer, flags, ttl, reply), multiset{})
      ensures fresh(members - old(members))
      ensures Counting(Packet(server, transId, isAnswer, flags, ttl, reply))
    {
      hide Inv, Conserved, Settled, Left, NextOf, Handles, Reported, NameserverRing.Up, NameserverRing.Valid, Verdict,
           Uncounted, Counters, Expecting;
      ListsFacts();
      RingIsValid();
      var ns := ServerAt(server);
      ghost var req, did;
      req, did := PacketArrives(ns, transId, isAnswer, flags, ttl, reply);
      if req != null {
        HadOne(req, flags, ttl, reply, did, old(NextOf(req)), old(Left(req)), old(req.sends),
               old(Reported(req, flags)), old(inflight.items), old(waiting.items), old(delivered));
      }
    }

    /** No probe is under way. */
    method ProbesRest() returns (r: bool)
      requires inflight.Valid()
      ensures r <==> forall q :: q in inflight.items ==> q.callback.User?
    {
      if inflight.head == null { return true; }
      var req: Request := inflight.head;
      ghost var i: nat := 0;
      while true
        invariant i < |inflight.items| && req == inflight.items[i]
        invariant forall k :: 0 <= k < i ==> inflight.items[k].callback.User?
        decreases |inflight.items| - i
      {
        if req.callback.Probe? { return false; }
        req := req.next;
        i := i + 1;
        if req == inflight.head { return true; }
      }
    }

    method SuspendStep()
      requires Inv(null) && Conserved()
      modifies `nInflight, `nWaiting, `suspensions, inflight, waiting, ring
      modifies members`next, members`prev, members`txCount, members`reissueCount, members`ns, members`timer
      modifies members`transId, members`transmitMe
      ensures Kept(false, old(delivered)) && ring.members <= old(ring.members) && Does(SuspendAll, multiset{})
      ensures old(suspensions) <= suspensions <= old(suspensions) + 1
      ensures Counting(SuspendAll)
    {
      var rest := ProbesRest();
      if rest { Suspend(); }
    }

    method ResumeStep()
      requires Inv(null) && Conserved()
      modifies `nInflight, `nWaiting, inflight, waiting, ring`head, ring`at, ring`good
      modifies ring.members`state, ring.members`failedTimes, ring.members`probeTimer
      modifies ring.members`choked, ring.members`writeWaiting
      modifies members`next, members`prev, members`ns, members`transId, members`packet
      modifies members`transmitMe, members`txCount, members`timer, members`sends
      ensures Kept(old(Settled()), old(delivered)) && Does(ResumeAll, multiset{})
      ensures Counting(ResumeAll)
    {
      hide Inv, Conserved, Promoted, Room, Uncounted, Counters, Expecting;
      NothingToCount(ResumeAll);
      ListsFacts();
      RingIsValid();
      if ring.head != null || waiting.head == null { Resume(); }
      OnlyDowns();
    }

    method AddServerStep(address: nat)
      requires Inv(null) && Conserved()
      modifies ring, ring.members
      ensures Kept(old(Settled()), old(delivered)) && (old(ring.order) != [] ==> ring.order != [])
        && Does(AddServer(address), multiset{})
      ensures fresh(ring.members - old(ring.members))
      ensures Counting(AddServer(address))
    {
      hide Inv, Conserved, Settled, NameserverRing.Up, NameserverRing.Valid, Uncounted, Counters, Expecting,
           Silent, PacketDoes, TimeoutDoes, RoomDoes, ProbedLast, Promoted, Texts, JustQueued;
      NothingToCount(AddServer(address));
      RingIsValid();
      ring.Facts();
      var _, _ := NameserverAdd(address);
    }

    /** The lists of before are there, as they were but perhaps for the one in use. */
    twostate predicate ListsKept(all: bool)
      reads `states, states
    {
      && old(states) <= states && fresh(states - old(states))
      && forall st :: st in old(states) && (all || st != old(search)) ==> st.edits == old(st.edits)
    }

    method SearchStep(input: Input)
      requires Inv(null) && Conserved()
      modifies `search, `states, `nodes, states
      requires input.AddDomain? || input.ClearDomains? || input.SetNdots?
      ensures Kept(old(Settled()), old(delivered)) && ListsKept(input.ClearDomains?) && Does(input, multiset{})
      ensures Counting(input)
    {
      hide Inv, Conserved, Settled, Texts, StripDots, Silent, PacketDoes, TimeoutDoes, RoomDoes, Promoted, Uncounted,
           Counters, Expecting;
      NothingToCount(input);
      SearchFacts();
      match input {
        case AddDomain(domain) => SearchAdd(domain);
        case ClearDomains => SearchClear();
        case SetNdots(ndots) => NdotsSet(ndots);
        case _ =>
      }
      OnlyDowns();
    }

    /** One thing happens.  What cannot happen now (no such server, request or running timer) changes nothing. */
    method Step(input: Input)
      requires Inv(null) && Conserved()
      modifies this, inflight, waiting, ring, ring.members, members, states
      ensures Kept(old(Settled()) && !input.SuspendAll? && old(ring.order) != [], old(delivered))
      ensures !input.SuspendAll? && old(ring.order) != [] ==> ring.order != []
      ensures Does(input, old(Takes(input)))
      ensures ListsKept(!input.AddDomain? && !input.SetNdots?) && accepted == old(accepted) + old(Takes(input))
      ensures if input.SuspendAll? then old(suspensions) <= suspensions <= old(suspensions) + 1
        else suspensions == old(suspensions)
      ensures fresh(members - old(members)) && fresh(ring.members - old(ring.members)) && fresh(states - old(states))
      ensures Counting(input)
    {
      hide Inv, Conserved, Settled, SearchLists, FirstOf, Encodable, Does, Counting;
      if input.SuspendAll? {
        SuspendStep();
      } else if input.AddServer? {
        AddServerStep(input.address);
      } else if input.AddDomain? || input.ClearDomains? || input.SetNdots? {
        SearchStep(input);
      } else {
        TrafficStep(input);
      }
    }

    method TrafficStep(input: Input)
      requires Inv(null) && Conserved()
      modifies `nInflight, `nWaiting, `members, `delivered, `accepted
      modifies inflight, waiting, ring`head, ring`at, ring`good, ring.members, members
      requires !input.SuspendAll? && !input.AddServer? && !input.AddDomain? && !input.ClearDomains? && !input.SetNdots?
      ensures Kept(old(Settled()) && ring.order != [], old(delivered)) && accepted == old(accepted) + old(Takes(input))
      ensures Does(input, old(Takes(input)))
      ensures fresh(members - old(members))
      ensures Counting(input)
    {
      hide Inv, Conserved, Settled, SearchLists, FirstOf, Encodable, Does, Counting;
      ListsFacts();
      if input.Lookup? {
        LookupStep(input.kind, input.name, input.noSearch, input.lookup);
      } else if input.RequestTimer? {
        RequestTimerStep(input.place);
      } else if input.ResumeAll? {
        ResumeStep();
      } else if ring.head != null {
        ServerStep(input);
      } else {
        NoServerStep(input);
      }
    }

    /** Without a server nothing comes from one. */
    method NoServerStep(input: Input)
      requires Inv(null) && Conserved() && ring.head == null
      requires input.Packet? || input.ProbeTimer? || input.Room? || input.ReadError?
      ensures Kept(old(Settled()), old(delivered)) && Does(input, multiset{})
      ensures Counting(input)
    {
      hide Inv, Conserved, Settled, NameserverRing.Up, Uncounted, Counters, Expecting;
      NoneToAsk();
      ExpectingFacts(null, null);
      OnlyDowns();
    }

    lemma NoneToAsk()
      requires Inv(null) && ring.head == null
      ensures ring.order == []
    {
    }

    method ServerStep(input: Input)
      requires Inv(null) && Conserved() && ring.head != null
      modifies `nInflight, `nWaiting, `members, `delivered
      modifies inflight, waiting, ring`head, ring`at, ring`good, ring.members, members
      requires input.Packet? || input.ProbeTimer? || input.Room? || input.ReadError?
      ensures Kept(old(Settled()), old(delivered)) && Does(input, multiset{})
      ensures fresh(members - old(members))
      ensures Counting(input)
    {
      hide Inv, Conserved, Settled, Does, Counting;
      ListsFacts();
      match input
      case Packet(server, transId, isAnswer, flags, ttl, reply) =>
        PacketStep(server, transId, isAnswer, flags, ttl, reply);
      case ProbeTimer(server) => ProbeTimerStep(server);
      case Room(server) => RoomStep(server);
      case ReadError(server) => ReadErrorStep(server);
      case _ =>
    }

    /**
     * Main result on whole runs, whatever happens in whatever order: every accepted lookup is pending in
     * exactly one request or was told exactly once; and in a run without a suspension, with a server from
     * the start, no lookup waits while there is room on the wire.
     */
    method Run(inputs: seq<Input>) returns (ghost story: seq<Moment>)
      requires Inv(null) && Conserved()
      modifies this, inflight, waiting, ring, ring.members, members, states
      ensures Inv(null) && Conserved() && old(delivered) <= delivered
      ensures old(accepted) <= accepted <= old(accepted) + AskedFor(inputs)
      ensures old(Settled()) && old(ring.order) != [] && (forall i :: 0 <= i < |inputs| ==> !inputs[i].SuspendAll?) ==>
        Settled()
      ensures (forall i :: 0 <= i < |inputs| ==> !inputs[i].SuspendAll?) ==> suspensions == old(suspensions)
      ensures (forall i :: 0 <= i < |inputs| ==> !inputs[i].AddDomain? && !inputs[i].SetNdots?) ==>
                forall st :: st in old(states) ==> st.edits == old(st.edits)
      ensures StoryFits(story, inputs)
      ensures Keeps(story, old(Rows()), Counters()) && InTime(story, old(Rows()), maxTimeouts)
    {
      hide Inv, Conserved, Settled, Takes, AskedFor, Does, Keeps, InTime, Row, Counting, Expecting, Counters, Rows,
           Fits, StoryFits, NoSuspension, NoEdit;
      story := [];
      StoryBegins();
      AskedForGrows(inputs, 0);
      for k := 0 to |inputs|
        invariant Inv(null) && Conserved() && old(delivered) <= delivered
        invariant old(accepted) <= accepted <= old(accepted) + AskedFor(inputs[..k])
        invariant old(Settled()) && old(ring.order) != [] && NoSuspension(inputs, k) ==> Settled() && ring.order != []
        invariant NoSuspension(inputs, k) ==> suspensions == old(suspensions)
        invariant old(states) <= states
        invariant NoEdit(inputs, k) ==> forall st :: st in old(states) ==> st.edits == old(st.edits)
        invariant fresh(members - old(members)) && fresh(ring.members - old(ring.members))
          && fresh(states - old(states))
        invariant StoryFits(story, inputs[..k])
        invariant Keeps(story, old(Rows()), Counters()) && InTime(story, old(Rows()), maxTimeouts)
      {
        AskedForGrows(inputs, k);
        TakesAsked(inputs[k]);
        OneInput(inputs, k);
        ghost var m := Watch(inputs[k], story, old(Rows()));
        LongerFits(story, m, inputs, k);
        story := story + [m];
      }
      assert inputs[..|inputs|] == inputs;
      AllInputs(inputs);
    }

    ghost predicate NoSuspension(inputs: seq<Input>, k: nat) {
      forall i :: 0 <= i < k && i < |inputs| ==> !inputs[i].SuspendAll?
    }

    ghost predicate NoEdit(inputs: seq<Input>, k: nat) {
      forall i :: 0 <= i < k && i < |inputs| ==> !inputs[i].AddDomain? && !inputs[i].SetNdots?
    }

    lemma OneInput(inputs: seq<Input>, k: nat)
      requires k < |inputs|
      ensures NoSuspension(inputs, k + 1) <==> NoSuspension(inputs, k) && !inputs[k].SuspendAll?
      ensures NoEdit(inputs, k + 1) <==> NoEdit(inputs, k) && !inputs[k].AddDomain? && !inputs[k].SetNdots?
    {
    }

    lemma AllInputs(inputs: seq<Input>)
      ensures (forall i :: 0 <= i < |inputs| ==> !inputs[i].SuspendAll?) ==> NoSuspension(inputs, |inputs|)
      ensures (forall i :: 0 <= i < |inputs| ==> !inputs[i].AddDomain? && !inputs[i].SetNdots?) ==>
        NoEdit(inputs, |inputs|)
    {
    }

    /** The timeouts in a row of the servers that are up. */
    ghost function Rows(): map<Nameserver, nat>
      reads ring`members, ring.members`state, ring.members`timedout
    {
      map s | s in ring.Up() :: s.timedout
    }

    /** Only a request timer is a timeout, and only a packet comes from a server. */
    ghost predicate Fits(m: Moment, input: Input) {
      (m.late != null ==> input.RequestTimer?) && (m.heard != null ==> input.Packet?)
    }

    ghost predicate StoryFits(story: seq<Moment>, inputs: seq<Input>) {
      |story| == |inputs| && forall k :: 0 <= k < |inputs| ==> Fits(story[k], inputs[k])
    }

    lemma LongerFits(story: seq<Moment>, m: Moment, inputs: seq<Input>, k: nat)
      requires k < |inputs| && StoryFits(story, inputs[..k]) && Fits(m, inputs[k])
      ensures StoryFits(story + [m], inputs[..k + 1])
    {
    }

    lemma StoryBegins()
      ensures StoryFits([], []) && Keeps([], Rows(), Counters()) && InTime([], Rows(), maxTimeouts)
    {
    }

    /** A step, and what it adds to the story. */
    method Watch(input: Input, ghost story: seq<Moment>, ghost start: map<Nameserver, nat>) returns (ghost m: Moment)
      requires Inv(null) && Conserved() && Keeps(story, start, Counters()) && InTime(story, start, maxTimeouts)
      modifies this, inflight, waiting, ring, ring.members, members, states
      ensures Kept(old(Settled()) && !input.SuspendAll? && old(ring.order) != [], old(delivered))
      ensures !input.SuspendAll? && old(ring.order) != [] ==> ring.order != []
      ensures ListsKept(!input.AddDomain? && !input.SetNdots?) && accepted == old(accepted) + old(Takes(input))
      ensures if input.SuspendAll? then old(suspensions) <= suspensions <= old(suspensions) + 1
        else suspensions == old(suspensions)
      ensures fresh(members - old(members)) && fresh(ring.members - old(ring.members)) && fresh(states - old(states))
      ensures m == Moment(old(LateAt(input)), old(HeardAt(input)), ring.Up()) && Fits(m, input)
      ensures Keeps(story + [m], start, Counters()) && InTime(story + [m], start, maxTimeouts)
    {
      hide Inv, Conserved, Settled, Takes, Does, Keeps, InTime, Row, Counters, Uncounted, Expected, Kept, ListsKept,
           NameserverRing.Up;
      ghost var c := Counters();
      CounterFacts();
      Step(input);
      CounterFacts();
      m := Moment(old(LateAt(input)), old(HeardAt(input)), ring.Up());
      KeepsOn(story, start, maxTimeouts, c, m, Counters());
    }

    lemma TakesAsked(input: Input)
      ensures Takes(input) <= AskedFor([input])
    {
      hide FirstOf, Encodable, SearchLists;
      assert [input][..0] == [];
    }

    // -------------------------------------------------------------- promises that fail

    /** With exactly one other server up, a request that waits to be sent to a server that is up is never reissued. */
    lemma OneOtherServer(req: Request)
      requires Inv(null) && req in inflight.items
      requires req.txCount == 0 && req.ns != null && req.ns.state && |ring.Up() - {req.ns}| == 1
      ensures !WillReissue(req)
    {
      hide UnsentFrom;
      assert ring.Up() - {req.ns} != {};
    }

    /** A lookup without a search, if the generator draws `id`, which passes the walk. */
    method SubmitDrawn(id: nat) returns (req: Request)
      requires Inv(null) && Conserved() && WouldFly() && id < NO_ID && Acceptable(id)
      modifies `nInflight, `members, `accepted, inflight, ring`head, ring`at, ring`good
      modifies ring.members`state, ring.members`failedTimes, ring.members`probeTimer
      modifies ring.members`choked, ring.members`writeWaiting
      modifies inflight.items`next, inflight.items`prev, inflight.items`ns
      ensures Inv(null) && Conserved() && fresh(req) && inflight.items == old(inflight.items) + [req]
      ensures req.transId == id && req.search == null && req.callback == User(0) && req.reissueCount == 0
      ensures req.sends == req.txCount <= maxRetransmits && SentOrFull(req, 0)
      ensures members == old(members) + {req}
      ensures old(ring.Next() != null && ring.Next().choked) ==>
        req.ns == old(ring.Next()) && req.txCount == 0 && unchanged(ring.members)
    {
      hide Inv, Loose, Submittable, Lookups, Acceptable, Accounted, WouldFly, NameserverRing.Next,
           NameserverRing.Valid, NameserverRing.Up, PROBE_NAME;
      ListsFacts();
      req := FlyDrawn(id);
      Accept(req, old(inflight.items), old(waiting.items), true);
    }

    method FlyDrawn(id: nat) returns (req: Request)
      requires Inv(null) && WouldFly() && id < NO_ID && Acceptable(id)
      modifies `nInflight, `members, inflight, ring`head, ring`at, ring`good
      modifies ring.members`state, ring.members`failedTimes, ring.members`probeTimer
      modifies ring.members`choked, ring.members`writeWaiting
      modifies inflight.items`next, inflight.items`prev, inflight.items`ns
      ensures Inv(null) && fresh(req) && inflight.items == old(inflight.items) + [req]
      ensures req.transId == id && req.search == null && req.callback == User(0) && req.reissueCount == 0
      ensures req.sends == req.txCount <= maxRetransmits && SentOrFull(req, 0)
      ensures members == old(members) + {req}
      ensures old(ring.Next() != null && ring.Next().choked) ==>
        req.ns == old(ring.Next()) && req.txCount == 0 && unchanged(ring.members)
    {
      hide Inv, Loose, Submittable, WouldFly, NameserverRing.Next, NameserverRing.Valid, NameserverRing.Up, PROBE_NAME;
      req := NewDrawn(id);
      FlyNewborn(req);
    }

    method FlyNewborn(req: Request)
      requires Inv(null) && Loose(req) && Submittable(req) && req.ns != null && req.ns in ring.members
      requires req.sends == req.txCount == 0
      modifies `nInflight, `members, inflight, ring`head, ring`at, ring`good
      modifies ring.members`state, ring.members`failedTimes, ring.members`probeTimer
      modifies ring.members`choked, ring.members`writeWaiting
      modifies inflight.items`next, inflight.items`prev
      modifies inflight.items`ns, req`next, req`prev, req`ns, req`transmitMe, req`txCount, req`timer, req`sends
      ensures Inv(null) && inflight.items == old(inflight.items) + [req] && members == old(members) + {req}
      ensures req.sends == req.txCount <= maxRetransmits && SentOrFull(req, 0)
      ensures old(req.ns.choked) ==> req.txCount == 0 && req.ns == old(req.ns) && unchanged(ring.members)
    {
      hide Inv, Loose, Submittable, NameserverRing.Next, NameserverRing.Valid, NameserverRing.Up;
      ListsFacts();
      Admit(req);
      SubmitToWire(req);
      FlyingFacts(req);
    }

    method NewDrawn(id: nat) returns (req: Request)
      requires Inv(null) && WouldFly() && id < NO_ID && Acceptable(id)
      modifies ring`head, ring`at
      ensures Inv(null) && fresh(req) && Loose(req) && Submittable(req) && req.ns == old(ring.Next())
      ensures req.ns != null && req.ns in ring.members
      ensures req.transId == id && req.search == null && req.callback == User(0)
        && req.reissueCount == req.txCount == req.sends == 0
    {
      hide Lists, Wire, Aside, Encodable, PROBE_NAME, NameserverRing.Next, NameserverRing.Up, Searchable, Asking;
      ProbeNameIsEncodable();
      var made := NewTry(Try(PROBE_NAME, None), A, 0, null, [],
        Story(PROBE_NAME, [PROBE_NAME], [PROBE_NAME], null, 0, 0));
      req := made;
      RequestTransIdSet(req, id);
    }

    lemma RefusalJudged(req: Request)
      requires req.ns != null && req.reissueCount < maxReissues
      ensures Reported(req, 5) == ring.Up() - {req.ns} && Useless(5) && Verdict(5, 0, None) == Error(ERR_REFUSED)
    {
    }

    /** A request that waits for the full socket of one of two servers that are up is refused by that server. */
    method RefusedUnsent(id: nat, ghost two: Nameserver)
      requires Inv(null) && Conserved() && WouldFly() && id < NO_ID && inflight.items == waiting.items == []
        && delivered == []
      requires ring.head != null && ring.head.choked && ring.Up() == {ring.head, two} && ring.head != two
      requires maxReissues > 0
      modifies `nInflight, `nWaiting, `members, `accepted, `delivered, inflight, waiting
      modifies ring`head, ring`at, ring`good, ring.members, members
      ensures delivered == [Delivery(0, Error(ERR_REFUSED))] && ring.Up() != {}
    {
      hide Inv, Conserved, Settled, WillReissue, Replaced, NameserverRing.Valid, NameserverRing.Next, Left, Encodable,
           Judged, Reported, EffortOf, Below, Verdict, Useless, WouldFly, Counters, Uncounted, Expecting;
      ListsFacts();
      RingIsValid();
      ring.HeadIsNext();
      ghost var one := ring.head;
      var req := SubmitDrawn(id);
      assert ring.Up() == {one, two} && ring.Up() - {one} == {two};
      OneOtherServer(req);
      RefusalJudged(req);
      ghost var did := ReplyHandle(req, 5, 0, None);
      assert did == Told(Error(ERR_REFUSED));
    }

    /** A search for `x` in one domain that goes on after a domain was added. */
    method ShiftSearch(x: seq<Byte>, d: seq<Byte>, e: seq<Byte>) returns (ghost first: Request?, ghost second: Request?)
      requires Inv(null) && Conserved() && WouldFly() && inflight.items == [] && x != [] && Dots(x) == 0
      requires search != null && search.ndots == 1 && Texts(search.domains) == [d]
      modifies this, inflight, waiting, ring`head, ring`at, ring`good, ring.members, members, search
      ensures Encodable(WithDomain(x, d)) ==>
        && first != null && second != null && first != second && first.callback == second.callback == User(0)
        && first.name == second.name == WithDomain(x, d) && second.story.names == [first.name, second.name]
    {
      hide Inv, Conserved, Settled, Encodable, WithDomain, Dots, ToldAndGone, WillReissue, EffortOf;
      SearchFacts();
      ListsFacts();
      var r, req := Resolve(A, x, false, 0);
      first, second := req, null;
      if r != 0 { return; }
      second := GoesOn(x, d, e);
    }

    lemma NotFound()
      ensures Verdict(3, 0, None) == Error(ERR_NOTEXIST) && !Useless(3)
    {
    }

    /** With a domain put in front, a search that stood at the first goes on to the second, which is the same. */
    lemma SecondDomain(req: Request, e: seq<Byte>, d: seq<Byte>)
      requires req.search in states && Texts(req.search.domains) == [e, d] && req.searchIndex == 0 && req.origName != []
      ensures NextOf(req) == Some(Try(WithDomain(req.origName, d), Some(1)))
    {
      hide WithDomain;
    }

    method GoesOn(x: seq<Byte>, d: seq<Byte>, e: seq<Byte>) returns (ghost second: Request)
      requires Inv(null) && Conserved() && inflight.items != [] && x != [] && Dots(x) == 0
      requires search != null && search.ndots == 1 && Texts(search.domains) == [d]
      requires inflight.items[0].search == search && inflight.items[0].searchIndex == 0
        && inflight.items[0].origName == x
      modifies this, inflight, waiting, ring`head, ring`at, ring`good, ring.members, members, search
      ensures Encodable(WithDomain(x, d)) ==>
        && fresh(second) && second.callback == old(inflight.items[0]).callback && second.name == WithDomain(x, d)
        && second.story.names == old(inflight.items[0]).story.names + [second.name]
    {
      hide Inv, Conserved, Settled, Encodable, WithDomain, Dots, ToldAndGone, WillReissue, EffortOf, NextOf, Left,
           Below, Again, AtUpServer, NameserverRing.Up, Reported, BroughtUp, Verdict, Useless;
      SearchFacts();
      ListsFacts();
      SearchAdd(e);
      SearchFacts();
      var req := inflight.head;
      SecondDomain(req, StripDots(e), d);
      NotFound();
      ghost var did := ReplyHandle(req, 3, 0, None);
      second := if did.HandedOn? then did.next else req;
    }

    /** Everything is suspended and resumed, with a server at some address: `req`, alone on the wire, starts over. */
    method StartAgain(req: Request, address: nat) returns (ghost server: Nameserver)
      requires Inv(null) && Conserved() && ring.order != [] && req.callback.User?
      requires inflight.items == [req] && waiting.items == []
      modifies this, inflight, waiting, ring, members
      ensures Inv(null) && Conserved() && ring.order != [] && inflight.items == [req] && waiting.items == []
      ensures suspensions == old(suspensions) + 1 && members == old(members)
      ensures fresh(server) && ring.members == {server}
      ensures req.txCount == req.sends - old(req.sends) <= maxRetransmits && (req.txCount > 0 || server.choked)
    {
      hide Inv, Conserved;
      ListsFacts();
      SuspendAlone(req);
      server := ResumeWith(req, address);
    }

    /** A server comes, which is the only one then, and `req`, which waits alone, goes to it. */
    method ResumeWith(req: Request, address: nat) returns (ghost server: Nameserver)
      requires Inv(null) && Conserved() && ring.order == [] && ring.members == {}
      requires inflight.items == [] && waiting.items == [req]
      requires req.txCount == 0
      modifies `nInflight, `nWaiting, inflight, waiting, ring, members
      ensures Inv(null) && Conserved() && ring.order != [] && inflight.items == [req] && waiting.items == []
      ensures fresh(server) && ring.members == {server}
      ensures req.txCount == req.sends - old(req.sends) <= maxRetransmits && (req.txCount > 0 || server.choked)
    {
      hide Inv, Conserved, Settled, SentOrFull, NameserverRing.Up;
      var _, added := NameserverAdd(address);
      server := added;
      Limits();
      ResumeAlone(req);
      FlyingFacts(req);
      OneServer(req, server);
    }

    lemma OneServer(req: Request, server: Nameserver)
      requires SentOrFull(req, 0) && ring.members == {server}
      ensures req.txCount > 0 || server.choked
    {
    }

    method SuspendAlone(req: Request)
      requires Inv(null) && Conserved() && ring.order != [] && req.callback.User?
      requires inflight.items == [req] && waiting.items == []
      modifies `nInflight, `nWaiting, `suspensions, inflight, waiting, ring
      modifies members`next, members`prev, members`txCount, members`reissueCount, members`ns, members`timer
      modifies members`transId, members`transmitMe
      ensures Inv(null) && Conserved() && ring.order == [] && ring.members == {}
      ensures inflight.items == [] && waiting.items == [req]
      ensures suspensions == old(suspensions) + 1 && req.txCount == 0
    {
      hide Inv, Conserved, Lookups;
      assert Reverse(inflight.items) == [req];
      Suspend();
      assert waiting.items == [req];
      ParkedFacts();
    }

    method ResumeAlone(req: Request)
      requires Inv(null) && Conserved() && ring.order != [] && inflight.items == [] && waiting.items == [req]
      modifies `nInflight, `nWaiting, inflight, waiting, ring`head, ring`at, ring`good, ring.members
      modifies members`next, members`prev, members`ns, members`transId, members`packet
      modifies members`transmitMe, members`txCount, members`timer, members`sends
      ensures Inv(null) && Conserved() && inflight.items == [req] && waiting.items == []
      ensures req.txCount - old(req.txCount) == req.sends - old(req.sends) && SentOrFull(req, 0)
    {
      hide Inv, Conserved, Settled, SentOrFull;
      ListsFacts();
      Limits();
      assert req in members;
      Resume();
      assert Counted(req);
    }

    lemma ParkedFacts()
      requires Inv(null)
      ensures forall r :: r in waiting.items ==> r.txCount == 0
    {
    }

    /** The socket of `ns` is full. */
    method Congest(ns: Nameserver)
      requires Inv(null) && ns in ring.members
      modifies ns`choked, ns`writeWaiting
      ensures Inv(null) && ns.choked
    {
      hide Asking, Carries;
      ns.choked, ns.writeWaiting := true, true;
    }
  }

  /** Two requests on the wire with one id: the second draw is the id of the head, which passes the walk. */
  method EqualIds(id: nat) returns (resolver: Resolver, a: Request, b: Request)
    requires id < NO_ID
    ensures resolver.Inv(null) && resolver.inflight.items == [a, b] && a != b
    ensures a.transId == b.transId == id && FirstWith(resolver.inflight.items, id) == a
  {
    hide Resolver.Inv, Resolver.Conserved, Resolver.Settled, FirstWith, NameserverRing.Up, NameserverRing.Next,
         Resolver.Counters, Uncounted, Resolver.SentOrFull;
    resolver := new Resolver(64, 1, 3, 3);
    var _, _ := resolver.NameserverAdd(1);
    resolver.ListsFacts();
    a := resolver.SubmitDrawn(id);
    resolver.ListsFacts();
    b := resolver.SubmitDrawn(id);
    FirstIs(resolver.inflight.items, id);
  }

  lemma FirstIs(l: seq<Request>, id: nat)
    requires l != [] && l[0].transId == id
    ensures FirstWith(l, id) == l[0]
  {
  }

  /**
   * A reissue that does not take place although another server is up: a request waits for a full socket, its
   * server refuses it all the same, and the caller is told at once.
   */
  method NotReissued(id: nat) returns (resolver: Resolver)
    requires id < NO_ID
    ensures resolver.delivered == [Delivery(0, Error(ERR_REFUSED))] && resolver.ring.Up() != {}
  {
    hide Resolver.Inv, Resolver.Conserved, Resolver.Settled, Resolver.WillReissue, Resolver.Replaced,
         NameserverRing.Valid, NameserverRing.Next, Resolver.Counters, Uncounted;
    resolver := new Resolver(64, 1, 3, 3);
    var _, one := resolver.NameserverAdd(1);
    resolver.RingIsValid();
    resolver.ring.Facts();
    var _, two := resolver.NameserverAdd(2);
    resolver.ListsFacts();
    resolver.RingIsValid();
    resolver.ring.Facts();
    resolver.Congest(resolver.ring.head);
    resolver.RefusedUnsent(id, if resolver.ring.head == one then two else one);
  }

  /**
   * Under limits that allow one sending, a request is sent once more after each of any number of suspensions,
   * as often as the bound on effort allows, unless a socket was full.
   */
  method SentAgain(id: nat, n: nat) returns (resolver: Resolver, req: Request, ghost servers: seq<Nameserver>)
    requires id < NO_ID
    ensures (1 + resolver.maxReissues) * resolver.maxRetransmits == 1
    ensures resolver.Inv(null) && req in resolver.inflight.items && resolver.suspensions == n
    ensures |servers| == 1 + n && NoRepeats(servers) && resolver.ring.members == {servers[n]}
    ensures (forall s :: s in servers ==> !s.choked) ==> req.sends == 1 + n
  {
    hide Resolver.Inv, Resolver.Conserved, Resolver.Settled, NameserverRing.Up, NameserverRing.Next;
    resolver := new Resolver(64, 0, 1, 3);
    var _, one := resolver.NameserverAdd(1);
    resolver.ListsFacts();
    req := resolver.SubmitDrawn(id);
    servers := [one];
    for k := 0 to n
      invariant resolver.Inv(null) && resolver.Conserved() && resolver.ring.order != []
      invariant resolver.inflight.items == [req] && resolver.waiting.items == [] && resolver.members == {req}
      invariant |servers| == 1 + k && NoRepeats(servers) && resolver.ring.members == {servers[k]}
      invariant resolver.suspensions == k && ((forall s :: s in servers ==> !s.choked) ==> req.sends == 1 + k)
    {
      var server := resolver.StartAgain(req, k);
      servers := servers + [server];
    }
  }

  /** A name tried twice: the search for x in [d] is shifted by a domain that is added in between. */
  method TriedTwice(x: seq<Byte>, d: seq<Byte>, e: seq<Byte>)
    returns (resolver: Resolver, ghost first: Request?, ghost second: Request?)
    requires x != [] && Dots(x) == 0
    ensures Encodable(WithDomain(x, StripDots(d))) ==>
      && first != null && second != null && first != second && first.callback == second.callback == User(0)
      && first.name == second.name == WithDomain(x, StripDots(d)) && second.story.names == [first.name, second.name]
  {
    hide Resolver.Inv, Resolver.Conserved, Resolver.Settled, Encodable, WithDomain, StripDots, Dots,
         Resolver.ToldAndGone;
    resolver := new Resolver(64, 1, 3, 3);
    var _, _ := resolver.NameserverAdd(1);
    resolver.SearchAdd(d);
    resolver.ListsFacts();
    first, second := resolver.ShiftSearch(x, StripDots(d), e);
  }
}
