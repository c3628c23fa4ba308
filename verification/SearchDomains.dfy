/** The list of domains that short names are tried in, and the order of the tries. */
module SearchDomains {
  import opened Bytes
  import opened NameParsing
  import opened Sequences

  class SearchDomain {
    const text: seq<Byte>
    var next: SearchDomain?

    constructor (text: seq<Byte>, next: SearchDomain?)
      ensures this.text == text && this.next == next
    {
      this.text, this.next := text, next;
    }
  }

  /** The texts along the list. */
  ghost function Texts(ds: seq<SearchDomain>): (r: seq<seq<Byte>>)
    ensures |r| == |ds| && forall i :: 0 <= i < |ds| ==> r[i] == ds[i].text
  {
    if ds == [] then [] else [ds[0].text] + Texts(ds[1..])
  }

  /** The list from `head` on is exactly `ds`. */
  ghost predicate Chain(ds: seq<SearchDomain>, head: SearchDomain?)
    reads ds`next
  {
    if ds == [] then head == null
    else head == ds[0] && head !in ds[1..] && Chain(ds[1..], head.next)
  }

  /** The domain from its first byte on that is no dot. */
  function StripDots(domain: seq<Byte>): seq<Byte> {
    if domain != [] && domain[0] == DOT then StripDots(domain[1..]) else domain
  }

  /** Exactly the dots in front are gone. */
  lemma {:induction false} OnlyDotsGo(domain: seq<Byte>)
    ensures var r := StripDots(domain);
      && (r == [] || r[0] != DOT) && |r| <= |domain| && r == domain[|domain| - |r|..]
      && forall i :: 0 <= i < |domain| - |r| ==> domain[i] == DOT
  {
    if domain != [] && domain[0] == DOT { OnlyDotsGo(domain[1..]); }
  }

  function Dots(s: seq<Byte>): nat {
    multiset(s)[DOT]
  }

  /** The dots are the next one and those behind it. */
  lemma NextDot(s: seq<Byte>)
    ensures IndexOf(s, DOT) < 0 ==> Dots(s) == 0
    ensures IndexOf(s, DOT) >= 0 ==> Dots(s) == 1 + Dots(s[IndexOf(s, DOT) + 1..])
  {
    var i := IndexOf(s, DOT);
    if i >= 0 {
      assert s == s[..i] + [s[i]] + s[i + 1..];
      assert DOT !in s[..i];
    }
  }

  /** string_num_dots */
  method StringNumDots(s: seq<Byte>) returns (count: nat)
    ensures count == Dots(s)
  {
    count := 0;
    var rest := s;
    while IndexOf(rest, DOT) >= 0
      invariant count + Dots(rest) == Dots(s)
      decreases |rest|
    {
      NextDot(rest);
      rest := rest[IndexOf(rest, DOT) + 1..];
      count := count + 1;
    }
    NextDot(rest);
  }

  /** A base name with a domain behind it; no second dot if the base ends in one. */
  function WithDomain(base: seq<Byte>, domain: seq<Byte>): seq<Byte>
    requires base != []
  {
    base + (if base[|base| - 1] == DOT then [] else [DOT]) + domain
  }

  /** What stands between the dots of a text. */
  ghost function Pieces(s: seq<Byte>): seq<seq<Byte>>
    decreases |s|
  {
    var dot := IndexOf(s, DOT);
    if dot < 0 then [s] else [s[..dot]] + Pieces(s[dot + 1..])
  }

  lemma {:induction false} PiecesOfBoth(a: seq<Byte>, b: seq<Byte>)
    ensures Pieces(a + [DOT] + b) == Pieces(a) + Pieces(b)
    decreases |a|
  {
    var s, dot := a + [DOT] + b, IndexOf(a, DOT);
    if dot < 0 {
      FirstDot(s, |a|);
      assert s[..|a|] == a && s[|a| + 1..] == b;
    } else {
      assert forall i :: 0 <= i < dot ==> a[..dot][i] == s[i];
      FirstDot(s, dot);
      assert s[..dot] == a[..dot] && s[dot + 1..] == a[dot + 1..] + [DOT] + b;
      PiecesOfBoth(a[dot + 1..], b);
    }
  }

  /**
   * The name that is tried: it begins with the base and ends with the domain, with a dot in front of that and no
   * more; its labels are those of the base, less a closing dot, and behind them those of the domain.
   */
  lemma DomainBehind(base: seq<Byte>, domain: seq<Byte>)
    requires base != []
    ensures var r := WithDomain(base, domain);
      && base <= r && |r| == |base| + |domain| + (if base[|base| - 1] == DOT then 0 else 1)
      && r[|r| - |domain| - 1] == DOT && r[|r| - |domain|..] == domain
    ensures var open := if base[|base| - 1] == DOT then base[..|base| - 1] else base;
      Pieces(WithDomain(base, domain)) == Pieces(open) + Pieces(domain)
  {
    var open := if base[|base| - 1] == DOT then base[..|base| - 1] else base;
    assert WithDomain(base, domain) == open + [DOT] + domain;
    PiecesOfBoth(open, domain);
  }

  class SearchState {
    var ndots: int
    var numDomains: int
    var head: SearchDomain?
    ghost var domains: seq<SearchDomain>
    /** How often the list or the threshold was changed. */
    ghost var edits: nat

    /** The counter is the length of the list. */
    ghost predicate Valid()
      reads this, domains`next
    {
      Chain(domains, head) && numDomains == |domains|
    }

    /** search_state_new */
    constructor ()
      ensures Valid() && domains == [] && ndots == 1
    {
      ndots, numDomains, head, domains, edits := 1, 0, null, [], 0;
    }

    /** The threshold is set, in place. */
    method SetNdots(ndots: int)
      modifies `ndots, `edits
      ensures this.ndots == ndots && edits == old(edits) + 1
    {
      this.ndots := ndots;
      edits := edits + 1;
    }

    /** search_postfix_add: the domain, without leading dots, goes in front. */
    method PostfixAdd(domain: seq<Byte>)
      requires Valid()
      modifies `numDomains, `head, `domains, `edits
      ensures Valid() && edits == old(edits) + 1 && Texts(domains) == [StripDots(domain)] + Texts(old(domains))
      ensures |domains| == |old(domains)| + 1 && fresh(domains[0]) && domains[1..] == old(domains)
    {
      var rest := domain;
      while rest != [] && rest[0] == DOT
        invariant StripDots(rest) == StripDots(domain)
      {
        rest := rest[1..];
      }
      numDomains := numDomains + 1;
      var sdomain := new SearchDomain(rest, head);
      head := sdomain;
      domains := [sdomain] + domains;
      edits := edits + 1;
    }

    /** search_reverse: turns the list around in place. */
    method ReverseList()
      requires Valid()
      modifies `head, `domains, `edits, domains`next
      ensures Valid() && domains == Reverse(old(domains)) && edits == old(edits) + 1
    {
      var cur, prev: SearchDomain? := head, null;
      ghost var ahead: seq<SearchDomain>, behind: seq<SearchDomain> := domains, [];
      while cur != null
        invariant Chain(ahead, cur) && Chain(behind, prev) && edits == old(edits)
        invariant forall d :: d in ahead || d in behind ==> d in old(domains)
        invariant forall d :: d in ahead ==> d !in behind
        invariant Reverse(old(domains)) == Reverse(ahead) + behind
        decreases |ahead|
      {
        var next := cur.next;
        FrontIsNew(ahead, cur);
        assert cur in ahead;
        cur.next := prev;
        behind, ahead := [ahead[0]] + behind, ahead[1..];
        prev := cur;
        cur := next;
      }
      head := prev;
      domains := behind;
      edits := edits + 1;
    }

    /** search_make_new: the base name with the n-th domain.  The list is never run off, as n is in range. */
    method MakeNew(n: int, base: seq<Byte>) returns (r: seq<Byte>)
      requires Valid() && base != [] && 0 <= n < numDomains
      ensures r == WithDomain(base, Texts(domains)[n])
    {
      var dom, left := head, n;
      ghost var rest := domains;
      while dom != null
        invariant 0 <= left < |rest| && Chain(rest, dom) && rest == domains[n - left..]
        decreases left
      {
        if left == 0 { return WithDomain(base, dom.text); }
        left := left - 1;
        dom := dom.next;
        rest := rest[1..];
      }
      assert false;
    }
  }

  lemma FrontIsNew(ahead: seq<SearchDomain>, cur: SearchDomain)
    requires Chain(ahead, cur)
    ensures ahead != [] && cur == ahead[0] && cur !in ahead[1..]
  {
  }

  // ---------------------------------------------------------------- the order of the tries

  /** One name tried, and the place in the search it leaves; None when no search goes on from it. */
  datatype Try = Try(name: seq<Byte>, index: Option<int>)

  /** search_request_new: where a search for `name` begins. */
  function FirstTry(name: seq<Byte>, ndots: int, domains: seq<seq<Byte>>): Try
    requires name != [] && domains != []
  {
    if Dots(name) >= ndots then Try(name, Some(-1)) else Try(WithDomain(name, domains[0]), Some(0))
  }

  /** search_try_next: what follows the try at `index`, if anything. */
  function NextTry(name: seq<Byte>, ndots: int, domains: seq<seq<Byte>>, index: int): Option<Try>
    requires name != [] && -1 <= index
  {
    if index + 1 >= |domains| then
      if Dots(name) < ndots then Some(Try(name, None)) else None
    else Some(Try(WithDomain(name, domains[index + 1]), Some(index + 1)))
  }

  /** The names that are tried after the try at `index`, if every try fails. */
  function RestTries(name: seq<Byte>, ndots: int, domains: seq<seq<Byte>>, index: int): seq<seq<Byte>>
    requires name != [] && -1 <= index
    decreases |domains| - index
  {
    match NextTry(name, ndots, domains, index)
    case None => []
    case Some(t) => [t.name] + if t.index.None? then [] else RestTries(name, ndots, domains, t.index.value)
  }

  function WithEach(name: seq<Byte>, domains: seq<seq<Byte>>): (r: seq<seq<Byte>>)
    requires name != []
    ensures |r| == |domains| && forall i :: 0 <= i < |r| ==> r[i] == WithDomain(name, domains[i])
  {
    seq(|domains|, i requires 0 <= i < |domains| => WithDomain(name, domains[i]))
  }

  /** The name that the try at `index` is for. */
  function NameAt(name: seq<Byte>, domains: seq<seq<Byte>>, index: int): seq<Byte>
    requires name != [] && -1 <= index < |domains|
  {
    if index == -1 then name else WithDomain(name, domains[index])
  }

  lemma {:induction false} RestIs(name: seq<Byte>, ndots: int, domains: seq<seq<Byte>>, index: int)
    requires name != [] && -1 <= index < |domains|
    ensures RestTries(name, ndots, domains, index)
         == WithEach(name, domains)[index + 1..] + (if Dots(name) < ndots then [name] else [])
    decreases |domains| - index
  {
    if index + 1 < |domains| {
      RestIs(name, ndots, domains, index + 1);
      assert WithEach(name, domains)[index + 1..] == [WithDomain(name, domains[index + 1])]
        + WithEach(name, domains)[index + 2..];
    } else {
      assert WithEach(name, domains)[index + 1..] == [];
    }
  }

  /** The candidates of a lookup in the order promised: the name first if it has enough dots, else last. */
  function Candidates(name: seq<Byte>, ndots: int, domains: seq<seq<Byte>>): seq<seq<Byte>>
    requires name != []
  {
    if Dots(name) >= ndots then [name] + WithEach(name, domains) else WithEach(name, domains) + [name]
  }

  /**
   * Main result on searching: while the list stays as it is, the tries are the name itself and then the name
   * with each domain in list order if the name has enough dots, otherwise the name with each domain and then
   * the name itself; each candidate is tried exactly once, one more than there are domains.
   */
  lemma SearchOrder(name: seq<Byte>, ndots: int, domains: seq<seq<Byte>>)
    requires name != [] && domains != []
    ensures var first := FirstTry(name, ndots, domains);
      && [first.name] + RestTries(name, ndots, domains, first.index.value) == Candidates(name, ndots, domains)
      && |Candidates(name, ndots, domains)| == |domains| + 1
  {
    var first := FirstTry(name, ndots, domains);
    RestIs(name, ndots, domains, first.index.value);
    assert WithEach(name, domains)[0..] == WithEach(name, domains);
    assert WithEach(name, domains) == [WithDomain(name, domains[0])] + WithEach(name, domains)[1..];
  }

  // ---------------------------------------------------------------- changes in mid-search

  /**
   * A domain added in mid-search shifts the list under the search: one try more is left, and the first of
   * them is the name tried last once again, unless that was the raw name.
   */
  lemma AddedInMidSearch(name: seq<Byte>, ndots: int, domains: seq<seq<Byte>>, index: int, added: seq<Byte>)
    requires name != [] && -1 <= index < |domains|
    ensures RestTries(name, ndots, [added] + domains, index)
         == [if index == -1 then WithDomain(name, added) else NameAt(name, domains, index)]
           + RestTries(name, ndots, domains, index)
  {
    hide RestTries, Dots, WithDomain;
    var more := [added] + domains;
    RestIs(name, ndots, domains, index);
    RestIs(name, ndots, more, index);
    assert WithEach(name, more)[index + 1..] == [WithDomain(name, more[index + 1])]
      + WithEach(name, domains)[index + 1..];
  }

  /** With list [d], the name x and threshold 1: after x.d and an addition, x.d is tried again. */
  lemma TriedAgain(x: seq<Byte>, d: seq<Byte>, e: seq<Byte>)
    requires x != [] && Dots(x) == 0
    ensures FirstTry(x, 1, [d]) == Try(WithDomain(x, d), Some(0))
    ensures NextTry(x, 1, [e] + [d], 0) == Some(Try(WithDomain(x, d), Some(1)))
  {
  }

  /**
   * A threshold changed in mid-search leaves the tries as they were exactly if the dots of the name are on the
   * same side of both; if not, the raw name is tried twice, or not at all.
   */
  lemma NdotsInMidSearch(name: seq<Byte>, ndots: int, ndots': int, domains: seq<seq<Byte>>, index: int)
    requires name != [] && -1 <= index < |domains|
    ensures RestTries(name, ndots', domains, index) == RestTries(name, ndots, domains, index)
        <==> (Dots(name) < ndots' <==> Dots(name) < ndots)
    ensures Dots(name) < ndots' && Dots(name) >= ndots ==>
              RestTries(name, ndots', domains, index) == RestTries(name, ndots, domains, index) + [name]
    ensures Dots(name) >= ndots' && Dots(name) < ndots ==>
              RestTries(name, ndots', domains, index) + [name] == RestTries(name, ndots, domains, index)
  {
    RestIs(name, ndots, domains, index);
    RestIs(name, ndots', domains, index);
  }
}
