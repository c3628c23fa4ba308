/** The event loop: a list with a sentinel, and a cursor that survives whatever callbacks delete. */
module MiniEvents {
  import opened Bytes
  import opened Sequences
  import opened TimeVals

  datatype Kinds = Kinds(read: bool, write: bool, signal: bool, persist: bool)

  class Event {
    var next: Event?
    var prev: Event?
    const fd: int
    const kinds: Kinds
    const isInternal: bool
    var timeout: TimeVal
    var expire: TimeVal

    /** event_set, and the flag that libevent keeps for its own events. */
    constructor (fd: int, kinds: Kinds, isInternal: bool)
      ensures next == prev == null && this.fd == fd && this.kinds == kinds && this.isInternal == isInternal
      ensures Normal(timeout) && Normal(expire)
    {
      next, prev := null, null;
      this.fd, this.kinds, this.isInternal := fd, kinds, isInternal;
      timeout, expire := ZERO, ZERO;
    }
  }

  // ---------------------------------------------------------------- what fires

  /** What select and the signal handler found. */
  datatype Found = Found(ignoreFds: bool, readable: set<int>, writable: set<int>, exceptional: set<int>,
    signals: set<int>)

  datatype Fire = Nothing | Io(read: bool, write: bool) | Signal | Timeout

  /** Signals come alone. */
  predicate Proper(kinds: Kinds) {
    kinds.signal ==> !kinds.read && !kinds.write
  }

  /** Whether `fd` is ready for reading, or for writing; an exceptional condition counts as both. */
  predicate CanRead(fd: int, found: Found) {
    !found.ignoreFds && (fd in found.exceptional || fd in found.readable)
  }

  predicate CanWrite(fd: int, found: Found) {
    !found.ignoreFds && (fd in found.exceptional || fd in found.writable)
  }

  /** The decision about one event. */
  function FireOf(fd: int, kinds: Kinds, expire: TimeVal, now: TimeVal, found: Found): Fire {
    var r, w := !kinds.signal && CanRead(fd, found), !kinds.signal && CanWrite(fd, found);
    if kinds.read && kinds.write && (r || w) then Io(r, w)
    else if kinds.read && !kinds.write && r then Io(true, false)
    else if !kinds.read && kinds.write && w then Io(false, true)
    else if !kinds.read && !kinds.write && kinds.signal && fd in found.signals then Signal
    else if !Less(now, expire) then Timeout
    else Nothing
  }

  /** Something that the event waits for was found. */
  ghost predicate SomethingFor(fd: int, kinds: Kinds, found: Found) {
    (kinds.read && CanRead(fd, found)) || (kinds.write && CanWrite(fd, found)) || (kinds.signal && fd in found.signals)
  }

  /** The deadline that firing leaves. */
  function AfterFire(kinds: Kinds, expire: TimeVal, timeout: TimeVal): TimeVal
    requires Normal(expire) && Normal(timeout)
  {
    if kinds.persist then Later(expire, timeout, 1) else expire
  }

  /**
   * An event fires for exactly what it waits for and was found; it times out only if nothing was, and at or after
   * its deadline; and an event that does not fire has nothing to fire for.
   */
  lemma FiresForAReason(fd: int, kinds: Kinds, expire: TimeVal, now: TimeVal, found: Found)
    requires Normal(now) && Normal(expire) && Proper(kinds)
    ensures match FireOf(fd, kinds, expire, now, found)
      case Nothing => Micros(now) < Micros(expire) && !SomethingFor(fd, kinds, found)
      case Io(r, w) =>
        (r || w) && r == (kinds.read && CanRead(fd, found)) && w == (kinds.write && CanWrite(fd, found))
      case Signal => kinds.signal && fd in found.signals
      case Timeout => Micros(now) >= Micros(expire) && !SomethingFor(fd, kinds, found)
  {
    LessIsMicros(now, expire);
  }

  /** What the world does in one turn of the loop: the times around select, its result, signals, and callbacks. */
  datatype Turn = Turn(before: TimeVal, sel: Selected, arrived: set<int>, now: TimeVal, script: seq<seq<Action>>)

  /** What a pass looks at after select. */
  function FoundBy(sel: Selected, signals: set<int>): Found {
    match sel
    case Selected(_, r, w, x) => Found(false, r, w, x, signals)
    case _ => Found(true, {}, {}, {}, signals)
  }

  /**
   * What a pass takes from select: a descriptor is ready for reading exactly if select said so or reported an
   * exceptional condition, likewise for writing, and nothing is if it was interrupted.
   */
  lemma FoundIs(sel: Selected, signals: set<int>, fd: int)
    ensures CanRead(fd, FoundBy(sel, signals)) <==> sel.Selected? && (fd in sel.readable || fd in sel.exceptional)
    ensures CanWrite(fd, FoundBy(sel, signals)) <==> sel.Selected? && (fd in sel.writable || fd in sel.exceptional)
    ensures FoundBy(sel, signals).signals == signals
  {
  }

  /** A pass, and the turn it belongs to. */
  datatype Pass = Pass(plan: Plan, trace: seq<Happened>, turn: nat, rounds: seq<Round>)

  /** What `passes` leave linked. */
  ghost function LeftBy(start: set<Event>, passes: seq<Pass>): set<Event> {
    if passes == [] then start
    else var last := passes[|passes| - 1]; LinkedAfter(last.plan.start, last.trace)
  }

  /** `pass` is one of the turn it names, and keeps what a pass promises. */
  ghost predicate PassOf(pass: Pass, turns: seq<Turn>) {
    && pass.turn < |turns| && Passed(pass.plan, pass.trace) && pass.plan.now == turns[pass.turn].now
    && pass.plan.found == FoundBy(turns[pass.turn].sel, pass.plan.found.signals)
  }

  /** What no callback of `before` touched has the deadline in `p` that `before` gave it. */
  ghost predicate Follows(before: Pass, p: Plan) {
    forall ev :: ev in before.plan.start && ev in p.start && !Touched(before.trace, ev) ==>
      && ev in p.due && p.due[ev] == Moved(before.plan, ev)
      && ev in p.every && ev in before.plan.every && p.every[ev] == before.plan.every[ev]
  }

  /** Passes of different turns, in their order, each starting with what the ones before left. */
  ghost predicate History(start: set<Event>, passes: seq<Pass>, turns: seq<Turn>) {
    forall i :: 0 <= i < |passes| ==>
      && PassOf(passes[i], turns) && passes[i].plan.start == LeftBy(start, passes[..i])
      && (i > 0 ==> passes[i - 1].turn < passes[i].turn && Follows(passes[i - 1], passes[i].plan))
  }

  /** How often `ev` fired in `passes`. */
  ghost function FiredIn(passes: seq<Pass>, ev: Event): nat {
    if passes == [] then 0
    else FiredIn(passes[..|passes| - 1], ev) + TimesFired(passes[|passes| - 1].trace, ev)
  }

  ghost predicate Undisturbed(passes: seq<Pass>, ev: Event) {
    forall i :: 0 <= i < |passes| ==> !Touched(passes[i].trace, ev)
  }

  /** A deadline after `k` firings: that of the start and `k` timeouts, up to the second that stands for never. */
  ghost predicate Rearmed(expire: TimeVal, start: TimeVal, timeout: TimeVal, k: nat) {
    && Normal(start) && Normal(timeout) && expire == Later(start, timeout, k)
    && (0 <= timeout.sec && Micros(start) + k * Micros(timeout) < HIGH_SEC * MILLION ==>
          Micros(expire) == Micros(start) + k * Micros(timeout))
  }

  lemma IsRearmed(start: TimeVal, timeout: TimeVal, k: nat)
    requires Normal(start) && Normal(timeout)
    ensures Rearmed(Later(start, timeout, k), start, timeout, k)
  {
    if 0 <= timeout.sec && Micros(start) + k * Micros(timeout) < HIGH_SEC * MILLION {
      DeadlinesDoNotDrift(start, timeout, k);
    }
  }

  /** One pass over a persistent event that no callback touches: it stays, and its deadline moves if it fires. */
  lemma SteadyOnce(pass: Pass, ev: Event, start: TimeVal, timeout: TimeVal, k: nat)
    requires Passed(pass.plan, pass.trace) && ev in pass.plan.start && ev.kinds.persist && !Touched(pass.trace, ev)
    requires Normal(start) && Normal(timeout)
    requires pass.plan.due[ev] == Later(start, timeout, k) && pass.plan.every[ev] == timeout
    ensures ev in LinkedAfter(pass.plan.start, pass.trace)
    ensures Moved(pass.plan, ev) == Later(start, timeout, k + TimesFired(pass.trace, ev))
  {
    hide Safe, Justified, Exams, Additions, TimesExamined, TimesFired, LinkedAfter, Touched, FireOf;
    var due := pass.plan.due[ev];
    if IsDue(pass.plan, ev) { RearmedAs(ev, pass.plan); }
    assert Later(start, timeout, k + 1) == if due.sec != HIGH_SEC then Plus(due, timeout) else due;
  }

  lemma RearmedAs(ev: Event, p: Plan)
    requires ev in p.due && ev in p.every && Normal(p.due[ev]) && Normal(p.every[ev]) && ev.kinds.persist
      && IsDue(p, ev)
    ensures Moved(p, ev) == if p.due[ev].sec != HIGH_SEC then Plus(p.due[ev], p.every[ev]) else p.due[ev]
  {
    assert Later(p.due[ev], p.every[ev], 1) == AfterFire(ev.kinds, p.due[ev], p.every[ev]);
  }

  /** The same from one pass to the next. */
  lemma SteadyNext(a: Pass, b: Pass, ev: Event, start: TimeVal, timeout: TimeVal, k: nat)
    requires Passed(a.plan, a.trace) && Passed(b.plan, b.trace) && Follows(a, b.plan)
    requires b.plan.start == LinkedAfter(a.plan.start, a.trace)
    requires ev in a.plan.start && ev.kinds.persist && !Touched(a.trace, ev) && Normal(start) && Normal(timeout)
    requires a.plan.due[ev] == Later(start, timeout, k) && a.plan.every[ev] == timeout
    ensures ev in b.plan.start && b.plan.due[ev] == Later(start, timeout, k + TimesFired(a.trace, ev))
    ensures b.plan.every[ev] == timeout
  {
    hide Safe, Justified, Exams, Additions, TimesExamined, TimesFired, LinkedAfter, Touched, IsDue, Stays, Moved, Later;
    SteadyOnce(a, ev, start, timeout, k);
  }

  lemma HistoryAt(start: set<Event>, passes: seq<Pass>, turns: seq<Turn>, i: nat)
    requires History(start, passes, turns) && i < |passes|
    ensures Passed(passes[i].plan, passes[i].trace) && passes[i].plan.due.Keys == passes[i].plan.every.Keys
    ensures passes[i].plan.due.Keys == passes[i].plan.start
    ensures i == 0 ==> passes[i].plan.start == start
    ensures i > 0 ==> Follows(passes[i - 1], passes[i].plan)
    ensures i > 0 ==> passes[i].plan.start == LinkedAfter(passes[i - 1].plan.start, passes[i - 1].trace)
  {
    hide Safe, Justified, Exams, Additions, TimesExamined, TimesFired, LinkedAfter, Touched, IsDue, Stays, Follows;
    assert PassOf(passes[i], turns) && passes[i].plan.start == LeftBy(start, passes[..i]);
  }

  lemma FiredInOne(passes: seq<Pass>, i: nat, ev: Event)
    requires i <= |passes|
    ensures FiredIn(passes[..0], ev) == 0
    ensures i < |passes| ==> FiredIn(passes[..i + 1], ev) == FiredIn(passes[..i], ev) + TimesFired(passes[i].trace, ev)
  {
    hide TimesFired;
    if i < |passes| { assert passes[..i + 1][..i] == passes[..i]; }
  }

  /**
   * Main result on timers in the loop: a persistent event that no callback touches is linked in every pass, and
   * has moved by its timeout for each time that it fired, and by nothing else.
   */
  lemma {:induction false} SteadyTimer(start: set<Event>, passes: seq<Pass>, turns: seq<Turn>, ev: Event, i: nat)
    requires History(start, passes, turns) && i < |passes| && ev in start && ev.kinds.persist
    requires Undisturbed(passes[..i], ev)
    requires ev in passes[0].plan.due && Normal(passes[0].plan.due[ev])
    requires ev in passes[0].plan.every && Normal(passes[0].plan.every[ev])
    ensures ev in passes[i].plan.start && ev in passes[i].plan.due && ev in passes[i].plan.every
    ensures passes[i].plan.due[ev] == Later(passes[0].plan.due[ev], passes[0].plan.every[ev], FiredIn(passes[..i], ev))
    ensures passes[i].plan.every[ev] == passes[0].plan.every[ev]
  {
    hide History, Passed, Follows, LinkedAfter, Touched, TimesFired, FiredIn;
    HistoryAt(start, passes, turns, i);
    FiredInOne(passes, if i == 0 then 0 else i - 1, ev);
    if i > 0 {
      assert forall j :: 0 <= j < i - 1 ==> passes[..i - 1][j] == passes[..i][j];
      assert passes[..i][i - 1] == passes[i - 1];
      SteadyTimer(start, passes, turns, ev, i - 1);
      HistoryAt(start, passes, turns, i - 1);
      SteadyNext(passes[i - 1], passes[i], ev, passes[0].plan.due[ev], passes[0].plan.every[ev],
                 FiredIn(passes[..i - 1], ev));
    }
  }

  lemma NoHistory(start: set<Event>)
    ensures History(start, [], [])
  {
  }

  lemma LongerHistory(start: set<Event>, passes: seq<Pass>, turns: seq<Turn>, t: Turn, more: seq<Pass>)
    requires History(start, passes, turns)
    requires |more| <= 1 && forall i :: 0 <= i < |more| ==>
      more[i].turn == |turns| && PassOf(more[i], turns + [t]) && more[i].plan.start == LeftBy(start, passes)
    requires passes != [] && more != [] ==> Follows(passes[|passes| - 1], more[0].plan)
    ensures History(start, passes + more, turns + [t])
  {
    hide Passed, LinkedAfter, LeftBy, Follows;
    var longer := passes + more;
    forall i | 0 <= i < |longer|
      ensures PassOf(longer[i], turns + [t]) && longer[i].plan.start == LeftBy(start, longer[..i])
      ensures i > 0 ==> longer[i - 1].turn < longer[i].turn && Follows(longer[i - 1], longer[i].plan)
    {
      if i < |passes| {
        assert longer[..i] == passes[..i];
        assert PassOf(passes[i], turns);
        if i > 0 { assert passes[i - 1].turn < passes[i].turn && Follows(passes[i - 1], passes[i].plan); }
      } else {
        assert longer[..i] == passes;
        if i > 0 { assert PassOf(passes[i - 1], turns); }
      }
    }
  }

  /** What select returns. */
  datatype Selected =
    | Broken
    | Interrupted
    | Selected(count: nat, readable: set<int>, writable: set<int>, exceptional: set<int>)

  // ---------------------------------------------------------------- what happened in a pass

  /** A pass: the events linked at its start with their deadlines and timeouts, the time, and what was found. */
  datatype Plan = Plan(start: set<Event>, due: map<Event, TimeVal>, every: map<Event, TimeVal>, now: TimeVal,
    found: Found)

  datatype Happened =
    | Examined(ev: Event)
    | Fired(ev: Event, fire: Fire, due: TimeVal)
    | Deleted(ev: Event, byCallback: bool)
    | Added(ev: Event)

  /** The events that are linked after `trace`, if `start` were before. */
  ghost function LinkedAfter(start: set<Event>, trace: seq<Happened>): set<Event> {
    if trace == [] then start else Then(LinkedAfter(start, trace[..|trace| - 1]), trace[|trace| - 1])
  }

  ghost function Then(linked: set<Event>, h: Happened): set<Event> {
    match h
    case Deleted(ev, _) => linked - {ev}
    case Added(ev) => linked + {ev}
    case _ => linked
  }

  /** Nothing fires that is not linked. */
  ghost predicate Safe(start: set<Event>, trace: seq<Happened>) {
    forall i :: 0 <= i < |trace| && trace[i].Fired? ==> trace[i].ev in LinkedAfter(start, trace[..i])
  }

  ghost function TimesExamined(trace: seq<Happened>, ev: Event): nat {
    if trace == [] then 0
    else TimesExamined(trace[..|trace| - 1], ev) + if trace[|trace| - 1] == Examined(ev) then 1 else 0
  }

  ghost function TimesFired(trace: seq<Happened>, ev: Event): nat {
    if trace == [] then 0
    else
      var last := trace[|trace| - 1];
      TimesFired(trace[..|trace| - 1], ev) + if last.Fired? && last.ev == ev then 1 else 0
  }

  /** How many examinations, and how many additions, there are in a trace. */
  ghost function Exams(trace: seq<Happened>): nat {
    if trace == [] then 0 else Exams(trace[..|trace| - 1]) + if trace[|trace| - 1].Examined? then 1 else 0
  }

  ghost function Additions(trace: seq<Happened>): nat {
    if trace == [] then 0 else Additions(trace[..|trace| - 1]) + if trace[|trace| - 1].Added? then 1 else 0
  }

  /** How often the callbacks of a script ask for an addition. */
  ghost function AddsOf(actions: seq<Action>): nat {
    if actions == [] then 0 else AddsOf(actions[..|actions| - 1]) + if actions[|actions| - 1].Add? then 1 else 0
  }

  ghost function AddsIn(script: seq<seq<Action>>): nat {
    if script == [] then 0 else AddsOf(script[0]) + AddsIn(script[1..])
  }

  /** Everything that fired did so for what its deadline, the time and what was found call for. */
  ghost predicate Justified(p: Plan, trace: seq<Happened>) {
    forall i :: 0 <= i < |trace| && trace[i].Fired? ==> FiresRightly(p, trace[i])
  }

  ghost predicate FiresRightly(p: Plan, h: Happened)
    requires h.Fired?
  {
    Normal(h.due) && h.fire == FireOf(h.ev.fd, h.ev.kinds, h.due, p.now, p.found) && h.fire != Nothing
  }

  /** No timeout in a pass comes before its deadline. */
  lemma NoneTooEarly(p: Plan, trace: seq<Happened>, i: nat)
    requires Justified(p, trace) && Normal(p.now) && i < |trace| && trace[i].Fired? && trace[i].fire == Timeout
    ensures Micros(p.now) >= Micros(trace[i].due)
  {
    assert FiresRightly(p, trace[i]);
    LessIsMicros(p.now, trace[i].due);
  }

  /** Whether an event of the pass will fire, if no callback interferes. */
  ghost predicate IsDue(p: Plan, ev: Event) {
    ev in p.due && FireOf(ev.fd, ev.kinds, p.due[ev], p.now, p.found) != Nothing
  }

  /** Whether it stays linked then: unless it fires and is not persistent. */
  ghost predicate Stays(p: Plan, ev: Event) {
    ev.kinds.persist || !IsDue(p, ev)
  }

  /** The deadline it has then. */
  ghost function Moved(p: Plan, ev: Event): TimeVal {
    if ev !in p.due then ZERO
    else if IsDue(p, ev) && ev in p.every && Normal(p.due[ev]) && Normal(p.every[ev])
    then AfterFire(ev.kinds, p.due[ev], p.every[ev])
    else p.due[ev]
  }

  /**
   * Of the events that a pass started with and no callback touched, those ahead were not examined yet, and the
   * others were examined once, and fired once if they were due.  What was examined and what lies ahead are no
   * more than the events of the start and those added since.
   */
  ghost predicate Counts(p: Plan, trace: seq<Happened>, ahead: seq<Event>) {
    && Exams(trace) + |ahead| <= |p.start| + Additions(trace)
    && forall ev :: ev in p.start && !Touched(trace, ev) ==>
      if ev in ahead then TimesExamined(trace, ev) == TimesFired(trace, ev) == 0
      else TimesExamined(trace, ev) == 1 && TimesFired(trace, ev) == if IsDue(p, ev) then 1 else 0
  }

  /** The counts after an addition or a deletion. */
  lemma CountsAfter(p: Plan, trace: seq<Happened>, h: Happened, ahead: seq<Event>, ahead': seq<Event>)
    requires Counts(p, trace, ahead) && (h.Added? || h.Deleted?)
    requires |ahead'| <= |ahead| + if h.Added? then 1 else 0
    requires forall e :: e in ahead' ==> e == h.ev || e in ahead
    requires forall e :: e in ahead && e != h.ev ==> e in ahead'
    requires h.Deleted? && !h.byCallback ==> h.ev !in ahead && h.ev !in ahead'
    ensures Counts(p, trace + [h], ahead')
  {
    hide TimesExamined, TimesFired, Exams, Additions, IsDue, Touched;
    OneMore(p, trace, h);
  }

  /** The counts after an event was examined, and fired if `fired` holds that. */
  lemma CountsPast(p: Plan, trace: seq<Happened>, ev: Event, fired: seq<Happened>, rest: seq<Event>)
    requires Counts(p, trace, [ev] + rest) && ev !in rest
    requires fired == [] || (|fired| == 1 && fired[0].Fired? && fired[0].ev == ev)
    requires ev in p.start && !Touched(trace, ev) ==> (IsDue(p, ev) <==> fired != [])
    ensures Counts(p, trace + [Examined(ev)] + fired, rest)
  {
    hide TimesExamined, TimesFired, Exams, Additions, IsDue, Touched;
    OneMore(p, trace, Examined(ev));
    if fired != [] {
      OneMore(p, trace + [Examined(ev)], fired[0]);
      assert fired == [fired[0]];
    } else {
      assert trace + [Examined(ev)] + fired == trace + [Examined(ev)];
    }
  }

  /** What a whole pass promises. */
  ghost predicate Passed(p: Plan, trace: seq<Happened>) {
    && Safe(p.start, trace) && Justified(p, trace) && Exams(trace) <= |p.start| + Additions(trace)
    && p.due.Keys == p.every.Keys == p.start
    && forall ev :: ev in p.start && !Touched(trace, ev) ==>
         && TimesExamined(trace, ev) == 1 && TimesFired(trace, ev) == (if IsDue(p, ev) then 1 else 0)
         && (ev in LinkedAfter(p.start, trace) <==> Stays(p, ev))
  }

  /** The events that no callback touched have the deadlines that the pass gives them. */
  ghost predicate Leaves(p: Plan, trace: seq<Happened>)
    reads p.start`expire, p.start`timeout
  {
    forall ev :: ev in p.start && !Touched(trace, ev) ==>
      ev in p.every && ev.timeout == p.every[ev] && ev.expire == Moved(p, ev)
  }

  lemma NoAdds(script: seq<seq<Action>>, k: nat)
    requires k <= |script|
    ensures AddsOf([]) == 0
    ensures k < |script| ==> AddsIn(script[k..]) == AddsOf(script[k]) + AddsIn(script[k + 1..])
  {
    if k < |script| { assert script[k..][1..] == script[k + 1..]; }
  }

  /** A callback deleted `ev`, or added it. */
  ghost predicate Touched(trace: seq<Happened>, ev: Event) {
    Deleted(ev, true) in trace || Added(ev) in trace
  }

  /** What one more entry changes. */
  lemma OneMore(p: Plan, trace: seq<Happened>, h: Happened)
    ensures LinkedAfter(p.start, trace + [h]) == Then(LinkedAfter(p.start, trace), h)
    ensures Safe(p.start, trace) && (h.Fired? ==> h.ev in LinkedAfter(p.start, trace)) ==> Safe(p.start, trace + [h])
    ensures Justified(p, trace) && (h.Fired? ==> FiresRightly(p, h)) ==> Justified(p, trace + [h])
    ensures forall e :: TimesFired(trace + [h], e) == TimesFired(trace, e) + if h.Fired? && h.ev == e then 1 else 0
    ensures Exams(trace + [h]) == Exams(trace) + if h.Examined? then 1 else 0
    ensures Additions(trace + [h]) == Additions(trace) + if h.Added? then 1 else 0
    ensures forall e :: TimesExamined(trace + [h], e) == TimesExamined(trace, e) + if h == Examined(e) then 1 else 0
    ensures forall e :: Touched(trace, e) ==> Touched(trace + [h], e)
    ensures forall e :: Touched(trace + [h], e) ==> Touched(trace, e) || h == Deleted(e, true) || h == Added(e)
    ensures h.Added? || (h.Deleted? && h.byCallback) ==> Touched(trace + [h], h.ev)
  {
    var t := trace + [h];
    assert t[..|t| - 1] == trace;
    assert forall i :: 0 <= i <= |trace| ==> t[..i] == trace[..i];
  }

  lemma {:induction false} StaysOut(start: set<Event>, trace: seq<Happened>, ev: Event, i: nat, j: nat)
    requires i < j <= |trace| && trace[i].Deleted? && trace[i].ev == ev
    requires forall k :: i < k < j ==> trace[k] != Added(ev)
    ensures ev !in LinkedAfter(start, trace[..j])
    decreases j
  {
    assert trace[..j][..j - 1] == trace[..j - 1];
    if i < j - 1 { StaysOut(start, trace, ev, i, j - 1); }
  }

  /** Main result on deletion: an event that was deleted does not fire unless it was added again in between. */
  lemma DeletedDoesNotFire(start: set<Event>, trace: seq<Happened>, ev: Event, i: nat, j: nat)
    requires Safe(start, trace) && i < j < |trace|
    requires trace[i].Deleted? && trace[i].ev == ev && trace[j].Fired? && trace[j].ev == ev
    ensures exists k :: i < k < j && trace[k] == Added(ev)
  {
    if forall k :: i < k < j ==> trace[k] != Added(ev) {
      StaysOut(start, trace, ev, i, j);
    }
  }

  // ---------------------------------------------------------------- the list

  datatype Action = Delete(ev: Event) | Add(ev: Event, after: Option<TimeVal>, at: TimeVal)

  /** What an action adds to the trace: an event that is linked is not added. */
  ghost function Doing(linked: set<Event>, a: Action): seq<Happened> {
    match a
    case Delete(ev) => [Deleted(ev, true)]
    case Add(ev, _, _) => if ev in linked then [] else [Added(ev)]
  }

  /** What a callback adds to it. */
  ghost function Asked(linked: set<Event>, actions: seq<Action>): seq<Happened> {
    if actions == [] then []
    else
      var before := Asked(linked, actions[..|actions| - 1]);
      before + Doing(LinkedAfter(linked, before), actions[|actions| - 1])
  }

  lemma NothingAsked(linked: set<Event>)
    ensures Asked(linked, []) == [] && LinkedAfter(linked, []) == linked
  {
  }

  lemma OneAction(linked: set<Event>, actions: seq<Action>, k: nat, now: set<Event>)
    requires k < |actions| && now == LinkedAfter(linked, Asked(linked, actions[..k]))
    ensures Asked(linked, actions[..k + 1]) == Asked(linked, actions[..k]) + Doing(now, actions[k])
    ensures LinkedAfter(linked, Asked(linked, actions[..k + 1])) == LinkedAfter(now, Doing(now, actions[k]))
    ensures AddsOf(actions[..k + 1]) == AddsOf(actions[..k]) + if actions[k].Add? then 1 else 0
  {
    hide LinkedAfter, Doing;
    assert actions[..k + 1][..k] == actions[..k];
    LinkedThen(linked, Asked(linked, actions[..k]), Doing(now, actions[k]));
  }

  lemma DoingLinks(linked: set<Event>, a: Action)
    ensures LinkedAfter(linked, Doing(linked, a)) == if a.Delete? then linked - {a.ev} else linked + {a.ev}
  {
    assert forall h: Happened :: [h][..0] == [];
  }

  /** An event has its turn in a pass: how it fires, the deadline it had, and what its callback does. */
  datatype Round = Round(ev: Event, fire: Fire, due: TimeVal, actions: seq<Action>)

  ghost function RoundTrace(linked: set<Event>, r: Round): seq<Happened> {
    if r.fire == Nothing then [Examined(r.ev)]
    else [Examined(r.ev), Fired(r.ev, r.fire, r.due)] + Rest(linked, r.ev, r.actions)
  }

  /** What follows when it has fired: an event that is not persistent is deleted first. */
  ghost function Rest(linked: set<Event>, ev: Event, actions: seq<Action>): seq<Happened> {
    if ev.kinds.persist then Asked(linked, actions) else [Deleted(ev, false)] + Asked(linked - {ev}, actions)
  }

  lemma AsRound(was: seq<Happened>, linked: set<Event>, r: Round, now: seq<Happened>)
    requires now == if r.fire == Nothing then was + [Examined(r.ev)]
                    else was + [Examined(r.ev)] + [Fired(r.ev, r.fire, r.due)] + Rest(linked, r.ev, r.actions)
    ensures now == was + RoundTrace(linked, r)
  {
    hide Rest;
  }

  ghost function TraceOf(start: set<Event>, rounds: seq<Round>): seq<Happened> {
    if rounds == [] then []
    else
      var before := TraceOf(start, rounds[..|rounds| - 1]);
      before + RoundTrace(LinkedAfter(start, before), rounds[|rounds| - 1])
  }

  lemma {:induction false} LinkedThen(start: set<Event>, a: seq<Happened>, b: seq<Happened>)
    ensures LinkedAfter(start, a + b) == LinkedAfter(LinkedAfter(start, a), b)
    decreases |b|
  {
    if b == [] {
      assert a + b == a;
    } else {
      var c := b[..|b| - 1];
      assert (a + b)[..|a + b| - 1] == a + c;
      LinkedThen(start, a, c);
    }
  }

  /** It has the timeout `after`, and its deadline at that time from `now` on; without one it never times out. */
  ghost predicate ArmedAs(ev: Event, after: Option<TimeVal>, now: TimeVal)
    reads ev
  {
    if after.Some? && after.value.sec < HIGH_SEC then
      ev.timeout == after.value && Normal(ev.expire) && Micros(ev.expire) == Micros(now) + Micros(after.value)
    else ev.timeout == ev.expire == NEVER
  }

  /** How many callbacks were called. */
  ghost function Calls(rounds: seq<Round>): nat {
    if rounds == [] then 0 else Calls(rounds[..|rounds| - 1]) + if rounds[|rounds| - 1].fire == Nothing then 0 else 1
  }

  /** The signals that were handed to their events. */
  ghost function Handled(rounds: seq<Round>): set<int> {
    set r | r in rounds && r.fire == Signal :: r.ev.fd
  }

  /** Each event fires as it has to, and the callbacks that are called do what the script says, in order. */
  ghost predicate Scripted(rounds: seq<Round>, script: seq<seq<Action>>, now: TimeVal, found: Found) {
    forall i :: 0 <= i < |rounds| ==> NextRound(rounds[..i], rounds[i], script, now, found)
  }

  ghost predicate NextRound(rounds: seq<Round>, r: Round, script: seq<seq<Action>>, now: TimeVal, found: Found) {
    && r.fire == FireOf(r.ev.fd, r.ev.kinds, r.due, now, found)
    && r.actions == if r.fire != Nothing && Calls(rounds) < |script| then script[Calls(rounds)] else []
  }

  lemma OneRound(start: set<Event>, rounds: seq<Round>, r: Round, script: seq<seq<Action>>, now: TimeVal, found: Found)
    ensures TraceOf(start, rounds + [r])
      == TraceOf(start, rounds) + RoundTrace(LinkedAfter(start, TraceOf(start, rounds)), r)
    ensures Calls(rounds + [r]) == Calls(rounds) + if r.fire == Nothing then 0 else 1
    ensures Handled(rounds + [r]) == Handled(rounds) + if r.fire == Signal then {r.ev.fd} else {}
    ensures Scripted(rounds, script, now, found) && NextRound(rounds, r, script, now, found) ==>
      Scripted(rounds + [r], script, now, found)
  {
    hide RoundTrace, FireOf;
    var more := rounds + [r];
    assert more[..|rounds|] == rounds;
    assert forall i :: 0 <= i <= |rounds| ==> more[..i] == rounds[..i];
    assert forall x :: x in more <==> x in rounds || x == r;
  }

  /** The list from place `k` on; place 0 is the sentinel, where a pass ends. */
  ghost function From(s: seq<Event>, k: nat): seq<Event>
    requires k < |s|
  {
    if k == 0 then [] else s[k..]
  }

  /** What event_add accepts: signals come alone, and without a timeout. */
  predicate Addable(kinds: Kinds, after: Option<TimeVal>) {
    Proper(kinds) && (kinds.signal ==> after.None?)
  }

  /** What a walk over `seen` knows. */
  ghost predicate Surveyed(seen: set<Event>, tv: TimeVal, earliest: TimeVal, outside: nat, wanted: set<int>)
    reads seen
  {
    && Normal(earliest) && !Less(tv, earliest)
    && (forall e :: e in seen ==> !Less(e.expire, earliest))
    && (earliest == tv || exists e :: e in seen && earliest == e.expire)
    && (outside > 0 <==> exists e :: e in seen && !e.isInternal)
    && (forall e :: e in seen && e.kinds.signal ==> e.fd in wanted)
    && (forall n :: n in wanted ==> exists e :: e in seen && e.kinds.signal && e.fd == n)
  }

  lemma OneSurveyed(seen: set<Event>, tv: TimeVal, earliest: TimeVal, outside: nat, wanted: set<int>, ev: Event)
    requires Surveyed(seen, tv, earliest, outside, wanted) && Normal(ev.expire)
    ensures Surveyed(seen + {ev}, tv, if Less(ev.expire, earliest) then ev.expire else earliest,
                     if ev.isInternal then outside else outside + 1,
                     if ev.kinds.signal then wanted + {ev.fd} else wanted)
  {
  }

  // ---------------------------------------------------------------- one turn, on values

  /** The deadlines and timeouts of the linked events, and the signals that wait. */
  datatype State = State(due: map<Event, TimeVal>, every: map<Event, TimeVal>, signals: set<int>)

  /** The earliest of the deadlines and `tv`. */
  ghost predicate EarliestOf(due: map<Event, TimeVal>, tv: TimeVal, earliest: TimeVal) {
    && Normal(earliest) && !Less(tv, earliest) && (forall e :: e in due ==> !Less(due[e], earliest))
    && (earliest == tv || exists e :: e in due && earliest == due[e])
  }

  /** A signal waits that an event waits for. */
  ghost predicate SignalWaits(a: State) {
    exists e :: e in a.due && e.kinds.signal && e.fd in a.signals
  }

  /** A turn has a pass: for what select says, or if a deadline is finite. */
  ghost predicate HasPass(a: State, nonblock: bool, t: Turn)
    requires Normal(t.before)
  {
    t.sel.Interrupted? || (t.sel.Selected? && (t.sel.count > 0
      || exists tv :: EarliestOf(a.due, if nonblock then ZERO else NEVER, tv) && tv.sec != HIGH_SEC
                      && (SignalWaits(a) || Since(tv, t.before).sec != HIGH_SEC)))
  }

  /** What a pass makes of the state; the deadlines of events that callbacks touched are theirs. */
  ghost predicate PassLeads(a: State, t: Turn, pass: Pass, b: State) {
    && pass.plan == Plan(a.due.Keys, a.due, a.every, t.now, FoundBy(t.sel, a.signals + t.arrived))
    && Passed(pass.plan, pass.trace)
    && pass.trace == TraceOf(pass.plan.start, pass.rounds)
    && Scripted(pass.rounds, t.script, t.now, pass.plan.found)
    && b.due.Keys == b.every.Keys == LinkedAfter(pass.plan.start, pass.trace)
    && (forall ev :: ev in a.due && ev in b.due && !Touched(pass.trace, ev) ==>
          ev in a.every && b.due[ev] == Moved(pass.plan, ev) && b.every[ev] == a.every[ev])
    && b.signals == a.signals + t.arrived - Handled(pass.rounds)
  }

  /** The turn `n`: what it returns, its pass if it has one, and the state after it. */
  ghost predicate TakesTurn(a: State, nonblock: bool, t: Turn, n: nat, r: int, done: seq<Pass>, b: State)
    requires Normal(t.before)
  {
    && r == (if forall e :: e in a.due ==> e.isInternal then 1 else if t.sel.Broken? then -1 else 0)
    && if r == 0 && HasPass(a, nonblock, t) then |done| == 1 && done[0].turn == n && PassLeads(a, t, done[0], b)
       else done == [] && b == a.(signals := if r == 1 then a.signals else a.signals + t.arrived)
  }

  ghost function AllOf(done: seq<seq<Pass>>): seq<Pass> {
    if done == [] then [] else AllOf(done[..|done| - 1]) + done[|done| - 1]
  }

  /** The turns one after the other; each but the last returns 0. */
  ghost predicate TurnsTaken(states: seq<State>, nonblock: bool, turns: seq<Turn>, r: int, done: seq<seq<Pass>>) {
    && |states| == |done| + 1 && |done| <= |turns|
    && forall k :: 0 <= k < |done| ==>
         && Normal(turns[k].before)
         && TakesTurn(states[k], nonblock, turns[k], k, if k == |done| - 1 then r else 0, done[k], states[k + 1])
  }

  lemma NoTurns(a: State, nonblock: bool, turns: seq<Turn>)
    ensures TurnsTaken([a], nonblock, turns, 0, []) && AllOf([]) == []
  {
  }

  lemma OneTurn(states: seq<State>, nonblock: bool, turns: seq<Turn>, r: int, done: seq<seq<Pass>>, more: seq<Pass>,
                b: State)
    requires TurnsTaken(states, nonblock, turns, 0, done) && |done| < |turns| && Normal(turns[|done|].before)
      && |states| == |done| + 1
    requires TakesTurn(states[|done|], nonblock, turns[|done|], |done|, r, more, b)
    ensures TurnsTaken(states + [b], nonblock, turns, r, done + [more]) && AllOf(done + [more]) == AllOf(done) + more
  {
    hide TakesTurn;
    assert (done + [more])[..|done|] == done;
  }

  class EventLoop {
    /** The sentinel. */
    const head: Event
    /** minievent_loop_ev: where the pass goes on, or null outside a pass. */
    var cursor: Event?
    /** minievent_got_signal_mask */
    var signals: set<int>
    /** The list from the sentinel on, and the place of the cursor in it. */
    ghost var ring: seq<Event>
    ghost var at: nat
    /** All events there are, linked or not. */
    ghost var pool: set<Event>
    ghost var trace: seq<Happened>

    /** One circular doubly linked list through the sentinel. */
    ghost predicate Circular()
      reads `ring, ring`next, ring`prev
    {
      && NoRepeats(ring) && ring != [] && ring[0] == head
      && (forall i {:trigger ring[i].next} :: 0 <= i < |ring| ==>
        ring[i].next == ring[if i + 1 == |ring| then 0 else i + 1])
      && (forall i {:trigger ring[i].prev} :: 0 <= i < |ring| ==>
        ring[i].prev == ring[if i == 0 then |ring| - 1 else i - 1])
    }

    ghost predicate Pooled()
      reads `ring, `pool
    {
      head !in pool && forall ev :: ev in ring ==> ev == head || ev in pool
    }

    /** Unlinked events have no links, and the times are well formed. */
    ghost predicate Unlinked()
      reads `ring, `pool, pool`next, pool`prev, pool`expire, pool`timeout
    {
      && (forall ev :: ev in pool && ev !in ring ==> ev.next == null && ev.prev == null)
      && (forall ev :: ev in pool ==> Normal(ev.expire) && Normal(ev.timeout))
    }

    /** The cursor is on the list. */
    ghost predicate OnList()
      reads `ring, `cursor, `at
    {
      cursor != null ==> at < |ring| && ring[at] == cursor
    }

    ghost predicate Valid()
      reads `ring, `pool, `cursor, `at, ring`next, ring`prev, pool`next, pool`prev, pool`expire, pool`timeout
    {
      Circular() && Pooled() && Unlinked() && OnList()
    }

    /** What the pass has yet to meet. */
    ghost function Ahead(): (r: seq<Event>)
      requires OnList()
      reads `ring, `cursor, `at
    {
      if cursor == null then [] else From(ring, at)
    }

    ghost function Linked(): set<Event>
      reads `ring
    {
      set ev | ev in ring && ev != head
    }

    constructor ()
      ensures Valid() && cursor == null && ring == [head] && fresh(head) && pool == {} && signals == {} && trace == []
    {
      var h := new Event(0, Kinds(false, false, false, false), true);
      head, cursor, signals, ring, at, pool, trace := h, null, {}, [h], 0, {}, [];
      new;
      h.next, h.prev := h, h;
    }

    /** event_set on memory of the caller. */
    method NewEvent(fd: int, kinds: Kinds, isInternal: bool) returns (ev: Event)
      requires Valid()
      modifies `pool
      ensures Valid() && fresh(ev) && pool == old(pool) + {ev} && ev !in ring
      ensures ev.fd == fd && ev.kinds == kinds && ev.isInternal == isInternal
    {
      hide Circular;
      ev := new Event(fd, kinds, isInternal);
      pool := pool + {ev};
    }

    /** The cursor moves off `ev`. */
    method SkipOver(ev: Event, ghost k: nat)
      requires Valid() && 0 < k < |ring| && ring[k] == ev
      modifies `cursor, `at
      ensures Valid() && cursor != ev && (cursor == null <==> old(cursor) == null)
      ensures cursor != null ==> at != k && at == if old(at) != k then old(at) else if k + 1 == |ring| then 0 else k + 1
    {
      hide Circular, Unlinked, Pooled;
      NextFacts(k);
      if ev == cursor {
        cursor := ev.next;
        at := if k + 1 == |ring| then 0 else k + 1;
      }
    }

    /** Takes `ev`, at place `k`, out of the list; the cursor, if on it, moves on. */
    method Unlink(ev: Event, ghost k: nat)
      requires Valid() && 0 < k < |ring| && ring[k] == ev
      modifies `cursor, `at, `ring, ring`next, ring`prev
      ensures Valid() && ring == Cut(old(ring), k) && (cursor == null <==> old(cursor) == null)
      ensures cursor != null ==>
        at == if old(at) < k then old(at) else if old(at) > k then old(at) - 1 else if k == |ring| then 0 else k
    {
      hide Circular, Pooled, Unlinked, From, NoRepeats;
      NextFacts(k);
      SkipOver(ev, k);
      DetachPooled(ev, k);
      if at > k { at := at - 1; }
    }

    method DetachPooled(ev: Event, ghost k: nat)
      requires Circular() && Pooled() && Unlinked() && 0 < k < |ring| && ring[k] == ev
      modifies `ring, ring`next, ring`prev
      ensures Circular() && Pooled() && Unlinked() && ring == Cut(old(ring), k)
    {
      hide Circular, Cut, NoRepeats;
      NextFacts(k);
      CutMembers(ring, k);
      Detach(ev, k);
    }

    lemma NextFacts(k: nat)
      requires Circular() && k < |ring|
      ensures ring[k].next == ring[if k + 1 == |ring| then 0 else k + 1] && ring[k].prev != null
      ensures ring[0] == head && NoRepeats(ring)
    {
    }

    /** The links of event_del. */
    method Detach(ev: Event, ghost k: nat)
      requires Circular() && 0 < k < |ring| && ring[k] == ev
      modifies `ring, ring`next, ring`prev
      ensures Circular() && ring == Cut(old(ring), k) && ev.next == null && ev.prev == null
    {
      hide Cut, NoRepeats, Bridged;
      BridgeOver(ev, k);
      BridgedCut(ring, k);
      ring := Cut(ring, k);
    }

    /** The neighbours of place `k` are linked to each other; all other links are those of a ring. */
    ghost predicate Bridged(s: seq<Event>, k: nat)
      requires 0 < k < |s|
      reads s`next, s`prev
    {
      var j := if k + 1 == |s| then 0 else k + 1;
      && NoRepeats(s) && s[0] == head
      && (forall i {:trigger s[i].next} :: 0 <= i < |s| && i != k ==>
            s[i].next == s[if i == k - 1 then j else if i + 1 == |s| then 0 else i + 1])
      && (forall i {:trigger s[i].prev} :: 0 <= i < |s| && i != k ==>
            s[i].prev == s[if i == j then k - 1 else if i == 0 then |s| - 1 else i - 1])
    }

    method BridgeOver(ev: Event, ghost k: nat)
      requires Circular() && 0 < k < |ring| && ring[k] == ev
      modifies ring`next, ring`prev
      ensures Bridged(ring, k) && ev.next == null && ev.prev == null
    {
      assert forall i :: 0 <= i < |ring| && i != k ==> ring[i] != ev;
      ev.prev.next := ev.next;
      ev.next.prev := ev.prev;
      ev.next, ev.prev := null, null;
    }

    lemma BridgedCut(s: seq<Event>, k: nat)
      requires 0 < k < |s| && Bridged(s, k)
      ensures var r := Cut(s, k);
        && NoRepeats(r) && r != [] && r[0] == head
        && (forall i {:trigger r[i].next} :: 0 <= i < |r| ==> r[i].next == r[if i + 1 == |r| then 0 else i + 1])
        && (forall i {:trigger r[i].prev} :: 0 <= i < |r| ==> r[i].prev == r[if i == 0 then |r| - 1 else i - 1])
    {
      hide Cut;
    }

    /** Links `ev` in at the end of the list, in front of the sentinel. */
    method LinkIn(ev: Event)
      requires Valid() && ev in pool && ev !in ring
      modifies `ring, ring`next, ring`prev, ev`next, ev`prev
      ensures Valid() && ring == old(ring) + [ev]
    {
      hide Circular;
      RingFacts();
      Attach(ev);
    }

    method Attach(ev: Event)
      requires Circular() && ev !in ring
      modifies `ring, ring`next, ring`prev, ev`next, ev`prev
      ensures Circular() && ring == old(ring) + [ev]
    {
      ev.prev := head.prev;
      ev.next := head;
      head.prev.next := ev;
      head.prev := ev;
      ring := ring + [ev];
    }

    // -------------------------------------------------------------- event_del and event_add

    /** Nothing fired that was not linked or not due, and the trace says what is linked. */
    ghost predicate Faithful(p: Plan)
      reads `ring, `trace
    {
      && Safe(p.start, trace) && LinkedAfter(p.start, trace) == Linked() && Justified(p, trace)
      && p.due.Keys == p.every.Keys == p.start
    }

    ghost predicate Progress(p: Plan, ahead: seq<Event>)
      reads `trace, `ring, p.start`expire, p.start`timeout
    {
      Counts(p, trace, ahead) && OnTime(p, ahead)
    }

    /** Those ahead are linked with their deadlines as they were; the others stay or not, and were armed again. */
    ghost predicate OnTime(p: Plan, ahead: seq<Event>)
      reads `trace, `ring, p.start`expire, p.start`timeout
    {
      forall ev :: ev in p.start && !Touched(trace, ev) ==>
        && ev in p.due && ev in p.every && ev.timeout == p.every[ev]
        && if ev in ahead then ev in Linked() && ev.expire == p.due[ev]
           else ev.expire == Moved(p, ev) && (ev in Linked() <==> Stays(p, ev))
    }

    ghost function Now(): State
      reads `ring, `signals, ring`expire, ring`timeout
    {
      State(map ev | ev in Linked() :: ev.expire, map ev | ev in Linked() :: ev.timeout, signals)
    }

    ghost function PlanFor(now: TimeVal, found: Found): Plan
      reads `ring, ring`expire, ring`timeout
    {
      Plan(Linked(), map ev | ev in Linked() :: ev.expire, map ev | ev in Linked() :: ev.timeout, now, found)
    }

    /** It fires in this pass, if it was linked at the start and no callback touched it. */
    ghost predicate WasDue(ev: Event, p: Plan)
      reads `trace
    {
      ev in p.start && !Touched(trace, ev) ==> IsDue(p, ev)
    }

    /** event_del */
    method EventDel(ev: Event, ghost byCallback: bool, ghost p: Plan)
      requires Valid() && ev in pool && Faithful(p) && Counts(p, trace, Ahead())
      requires OnTime(p, if byCallback then Ahead() else [ev] + Ahead())
      requires byCallback || (ev !in Ahead() && !ev.kinds.persist && WasDue(ev, p))
      modifies `cursor, `at, `ring, `trace, ring`next, ring`prev
      ensures Valid() && Faithful(p) && Progress(p, Ahead()) && trace == old(trace) + [Deleted(ev, byCallback)]
      ensures Linked() == old(Linked()) - {ev} && (cursor == null <==> old(cursor) == null)
      ensures |Ahead()| <= |old(Ahead())|
    {
      hide Circular, Unlinked, Pooled, LinkedAfter, Safe, Touched, From, Justified, IsDue, Counts;
      OneMore(p, trace, Deleted(ev, byCallback));
      Remove(ev);
      CountsAfter(p, trace, Deleted(ev, byCallback), old(Ahead()), Ahead());
      trace := trace + [Deleted(ev, byCallback)];
    }

    method Remove(ev: Event)
      requires Valid() && ev in pool
      modifies `cursor, `at, `ring, ring`next, ring`prev
      ensures Valid() && Linked() == old(Linked()) - {ev} && (cursor == null <==> old(cursor) == null)
      ensures |Ahead()| <= |old(Ahead())|
      ensures forall e :: e in Ahead() ==> e in old(Ahead()) && e != ev
      ensures forall e :: e in old(Ahead()) && e != ev ==> e in Ahead()
      ensures ev !in old(ring) ==> ring == old(ring) && cursor == old(cursor)
      ensures ev in old(ring) ==> exists k :: 0 < k < |old(ring)| && old(ring)[k] == ev && ring == Cut(old(ring), k)
    {
      hide Circular;
      if ev in ring { InRing(ev); }
      if ev.next != null {
        ghost var k := PlaceOf(ring, ev);
        FromCut(k);
        NextFacts(k);
        CutMembers(ring, k);
        Unlink(ev, k);
      } else {
        assert ev !in ring;
      }
    }

    lemma InRing(ev: Event)
      requires Circular() && ev in ring
      ensures ev.next != null && ev.prev != null && (ev != head ==> ring[0] != ev)
    {
    }

    /** How what lies from place `a` on changes when place `k` is cut out. */
    lemma FromCut(k: nat)
      requires Circular() && OnList() && 0 < k < |ring|
      ensures cursor != null ==>
        var b := if at < k then at else if at > k then at - 1 else if k == |ring| - 1 then 0 else k;
        var r := From(Cut(ring, k), b);
        && |r| <= |From(ring, at)|
        && (forall e :: e in r ==> e in From(ring, at) && e != ring[k])
        && (forall e :: e in From(ring, at) && e != ring[k] ==> e in r)
    {
      if cursor != null && at > 0 {
        if at < k {
          assert Cut(ring, k)[at..] == ring[at..k] + ring[k + 1..];
          assert ring[at..] == ring[at..k] + [ring[k]] + ring[k + 1..];
        } else if at > k {
          assert Cut(ring, k)[at - 1..] == ring[at..];
        } else {
          assert Cut(ring, k)[k..] == ring[k + 1..];
          assert ring[k..] == [ring[k]] + ring[k + 1..];
        }
      }
    }

    lemma RingFacts()
      requires Circular()
      ensures ring != [] && ring[0] == head && head.next == ring[if |ring| == 1 then 0 else 1]
      ensures forall i :: 0 < i < |ring| ==> ring[i] != head
    {
    }

    /** The deadline that event_add gives `ev` at time `now`. */
    method SetDeadline(ev: Event, after: Option<TimeVal>, now: TimeVal)
      requires Valid() && ev in pool && Normal(now) && (after.Some? ==> Normal(after.value))
      modifies ev`timeout, ev`expire
      ensures Valid()
      ensures if after.Some? && after.value.sec < HIGH_SEC
              then ev.timeout == after.value && ev.expire == Plus(now, after.value)
              else ev.timeout == ev.expire == NEVER
    {
      hide Circular;
      if after.Some? && after.value.sec < HIGH_SEC {
        ev.timeout, ev.expire := after.value, Plus(now, after.value);
      } else {
        ev.timeout, ev.expire := NEVER, NEVER;
      }
    }

    /** event_add of an event that is not linked: it comes last, with its deadline set. */
    method EventAdd(ev: Event, after: Option<TimeVal>, now: TimeVal, ghost p: Plan)
      requires Valid() && ev in pool && ev !in ring && Addable(ev.kinds, after) && Normal(now)
        && (after.Some? ==> Normal(after.value))
      requires Faithful(p) && Progress(p, Ahead())
      modifies `ring, `trace, ring`next, ring`prev, ev`next, ev`prev, ev`timeout, ev`expire
      ensures Valid() && Faithful(p) && Progress(p, Ahead()) && trace == old(trace) + [Added(ev)]
      ensures ring == old(ring) + [ev] && |Ahead()| <= |old(Ahead())| + 1
      ensures if after.Some? && after.value.sec < 0x7fff_ffff
              then ev.timeout == after.value && ev.expire == Plus(now, after.value)
              else ev.timeout == ev.expire == TimeVal(0x7fff_ffff, 0)
    {
      hide Circular, Unlinked, Pooled, LinkedAfter, Safe, Touched, Justified, IsDue, Moved, Stays, Counts, From,
           TimesFired, TimesExamined, Exams, Additions;
      OneMore(p, trace, Added(ev));
      PutLast(ev, after, now);
      CountsAfter(p, trace, Added(ev), old(Ahead()), Ahead());
      trace := trace + [Added(ev)];
    }

    method PutLast(ev: Event, after: Option<TimeVal>, now: TimeVal)
      requires Valid() && ev in pool && ev !in ring && Normal(now) && (after.Some? ==> Normal(after.value))
      modifies `ring, ring`next, ring`prev, ev`next, ev`prev, ev`timeout, ev`expire
      ensures Valid() && ring == old(ring) + [ev] && Linked() == old(Linked()) + {ev} && |Ahead()| <= |old(Ahead())| + 1
      ensures forall e :: e in Ahead() ==> e == ev || e in old(Ahead())
      ensures forall e :: e in old(Ahead()) ==> e in Ahead()
      ensures if after.Some? && after.value.sec < HIGH_SEC
              then ev.timeout == after.value && ev.expire == Plus(now, after.value)
              else ev.timeout == ev.expire == NEVER
    {
      hide Circular, Unlinked, From;
      RingFacts();
      FromAdded(ev);
      LinkIn(ev);
      SetDeadline(ev, after, now);
    }

    lemma FromAdded(ev: Event)
      requires OnList() && ring != [] && ev !in ring
      ensures cursor != null ==> forall e :: e in From(ring + [ev], at) ==> e == ev || e in From(ring, at)
      ensures cursor != null ==> forall e :: e in From(ring, at) ==> e in From(ring + [ev], at)
      ensures cursor != null ==> |From(ring + [ev], at)| <= |From(ring, at)| + 1
    {
      if cursor != null && at > 0 {
        assert (ring + [ev])[at..] == ring[at..] + [ev];
      }
    }

    // -------------------------------------------------------------- callbacks

    /** An action that a callback can take. */
    ghost predicate Fit(a: Action)
      reads `pool
    {
      a.ev in pool && (a.Add? ==>
        Addable(a.ev.kinds, a.after) && Normal(a.at) && (a.after.Some? ==> Normal(a.after.value)))
    }

    ghost predicate AllFit(script: seq<seq<Action>>)
      reads `pool
    {
      forall i, j :: 0 <= i < |script| && 0 <= j < |script[i]| ==> Fit(script[i][j])
    }

    /** One action of a callback; it does not add what is linked. */
    method Act(a: Action, ghost p: Plan)
      requires Valid() && Fit(a) && Faithful(p) && Progress(p, Ahead())
      modifies `cursor, `at, `ring, `trace, head`next, head`prev, pool`next, pool`prev, pool`timeout, pool`expire
      ensures Valid() && Faithful(p) && Progress(p, Ahead()) && (cursor == null <==> old(cursor) == null)
      ensures trace == old(trace) + Doing(old(Linked()), a)
        && Linked() == LinkedAfter(old(Linked()), Doing(old(Linked()), a))
      ensures a.Add? && a.ev !in old(Linked()) ==> ArmedAs(a.ev, a.after, a.at)
      ensures Within(old(|Ahead()|), old(Additions(trace)), if a.Add? then 1 else 0)
    {
      hide Circular, Faithful, Counts, OnTime, Unlinked, LinkedAfter;
      DoingLinks(Linked(), a);
      IsLinked(a.ev);
      match a
      case Delete(ev) =>
        OneMore(p, trace, Deleted(ev, true));
        EventDel(ev, true, p);
      case Add(ev, after, now) =>
        if ev.next == null { AddUnlinked(ev, after, now, p); }
    }

    lemma IsLinked(ev: Event)
      requires Valid() && ev in pool
      ensures ev.next != null <==> ev in Linked()
    {
      if ev in ring { InRing(ev); }
    }

    /** No more lies ahead, and no more was added, than `ahead` and `added` and `more` for each. */
    ghost predicate Within(ahead: nat, added: nat, more: nat)
      requires OnList()
      reads `ring, `cursor, `at, `trace
    {
      |Ahead()| <= ahead + more && Additions(trace) <= added + more
    }

    method AddUnlinked(ev: Event, after: Option<TimeVal>, now: TimeVal, ghost p: Plan)
      requires Valid() && ev.next == null && Fit(Add(ev, after, now)) && Faithful(p) && Progress(p, Ahead())
      modifies `ring, `trace, ring`next, ring`prev, ev`next, ev`prev, ev`timeout, ev`expire
      ensures Valid() && Faithful(p) && Progress(p, Ahead())
      ensures trace == old(trace) + [Added(ev)] && ring == old(ring) + [ev] && ArmedAs(ev, after, now)
      ensures Within(old(|Ahead()|), old(Additions(trace)), 1)
    {
      hide Circular, Faithful, Progress, Unlinked;
      if ev in ring { InRing(ev); }
      OneMore(p, trace, Added(ev));
      EventAdd(ev, after, now, p);
    }

    /** A callback: any number of actions. */
    method Callback(actions: seq<Action>, ghost p: Plan)
      requires Valid() && Faithful(p) && Progress(p, Ahead()) && forall k :: 0 <= k < |actions| ==> Fit(actions[k])
      modifies `cursor, `at, `ring, `trace, head`next, head`prev, pool`next, pool`prev, pool`timeout, pool`expire
      ensures Valid() && Faithful(p) && Progress(p, Ahead()) && (cursor == null <==> old(cursor) == null)
      ensures trace == old(trace) + Asked(old(Linked()), actions)
        && Linked() == LinkedAfter(old(Linked()), Asked(old(Linked()), actions))
      ensures Within(old(|Ahead()|), old(Additions(trace)), AddsOf(actions))
      ensures actions == [] ==> unchanged(`cursor, `at, `ring, `trace, pool`expire)
    {
      hide Circular, Faithful, Progress, Unlinked, Fit, Additions, Asked, Doing, LinkedAfter, ArmedAs, AddsOf, Linked,
           Pooled, Ahead;
      NothingAsked(Linked());
      assert actions[..0] == [];
      for k := 0 to |actions|
        invariant Valid() && Faithful(p) && Progress(p, Ahead()) && (cursor == null <==> old(cursor) == null)
        invariant forall i :: 0 <= i < |actions| ==> Fit(actions[i])
        invariant trace == old(trace) + Asked(old(Linked()), actions[..k])
          && Linked() == LinkedAfter(old(Linked()), Asked(old(Linked()), actions[..k]))
        invariant Within(old(|Ahead()|), old(Additions(trace)), AddsOf(actions[..k]))
        invariant k == 0 ==> unchanged(`cursor, `at, `ring, `trace, pool`expire)
      {
        OneAction(old(Linked()), actions, k, Linked());
        Act(actions[k], p);
      }
      assert actions[..|actions|] == actions;
    }

    // -------------------------------------------------------------- one pass

    /**
     * The cursor moves past the event at place `k` before anything is done about that event; the event will
     * fire as `fire` says.
     */
    method StepPast(ev: Event, ghost k: nat, ghost fire: Fire, ghost p: Plan)
      requires Valid() && 0 < k < |ring| && ring[k] == ev && Faithful(p) && Progress(p, From(ring, k))
      requires fire == FireOf(ev.fd, ev.kinds, ev.expire, p.now, p.found)
      modifies `cursor, `at, `trace
      ensures Valid() && Faithful(p) && cursor != null && Counts(p, trace, Ahead())
      ensures if fire == Nothing then OnTime(p, Ahead()) else OnTime(p, [ev] + Ahead()) && WasDue(ev, p)
      ensures fire == Nothing ==> trace == old(trace) + [Examined(ev)]
      ensures fire != Nothing ==> trace == old(trace) + [Examined(ev)] + [Fired(ev, fire, ev.expire)]
      ensures ev !in Ahead() && |Ahead()| < |From(ring, k)| && Additions(trace) == old(Additions(trace))
    {
      hide Circular, Unlinked, Pooled, LinkedAfter, Safe, Touched, From, Justified, Counts, Additions, TimesExamined,
           TimesFired, Exams, FireOf;
      AtPlace(ev, k);
      OneMore(p, trace, Examined(ev));
      OneMore(p, trace + [Examined(ev)], Fired(ev, fire, ev.expire));
      MoveOn(ev, k);
      CountsPast(p, trace, ev, if fire == Nothing then [] else [Fired(ev, fire, ev.expire)], Ahead());
      trace := trace + [Examined(ev)];
      assert trace + [] == trace;
      if fire != Nothing { trace := trace + [Fired(ev, fire, ev.expire)]; }
    }

    lemma AtPlace(ev: Event, k: nat)
      requires Valid() && 0 < k < |ring| && ring[k] == ev
      ensures ev in Linked() && Normal(ev.expire) && Normal(ev.timeout) && ev in From(ring, k)
    {
      hide Circular, Unlinked;
      InLinked(k);
      IsNormal(ev);
    }

    method MoveOn(ev: Event, ghost k: nat)
      requires Valid() && 0 < k < |ring| && ring[k] == ev
      modifies `cursor, `at
      ensures Valid() && cursor != null && From(ring, k) == [ev] + Ahead() && ev !in Ahead()
    {
      hide Circular, Unlinked, Pooled, From;
      FromNext(k);
      NextFacts(k);
      cursor := ev.next;
      at := if k + 1 == |ring| then 0 else k + 1;
    }

    lemma IsNormal(ev: Event)
      requires Unlinked() && Pooled() && ev in Linked()
      ensures Normal(ev.expire) && Normal(ev.timeout) && ev in pool
    {
    }

    lemma FromNext(k: nat)
      requires Circular() && 0 < k < |ring|
      ensures var rest := From(ring, if k + 1 == |ring| then 0 else k + 1);
        From(ring, k) == [ring[k]] + rest && ring[k] !in rest
    {
    }

    /** A persistent event that fired stays, with its deadline moved on by its timeout. */
    method Rearm(ev: Event, ghost p: Plan)
      requires Valid() && ev in Linked() && ev !in Ahead() && ev.kinds.persist && WasDue(ev, p)
      requires OnTime(p, [ev] + Ahead())
      modifies ev`expire
      ensures Valid() && OnTime(p, Ahead()) && ev.expire == Later(old(ev.expire), ev.timeout, 1)
    {
      hide Circular, IsDue, Touched;
      IsNormal(ev);
      if ev in p.start && !Touched(trace, ev) { RearmedAs(ev, p); }
      assert forall e :: e in [ev] + Ahead() <==> e == ev || e in Ahead();
      if ev.expire.sec != HIGH_SEC {
        ev.expire := Plus(ev.expire, ev.timeout);
      }
    }

    /** do_fire: a persistent event is armed again, any other is deleted, and then the callback runs. */
    method DoFire(ev: Event, actions: seq<Action>, ghost p: Plan)
      requires Valid() && ev in Linked() && ev !in Ahead() && Faithful(p) && cursor != null
      requires Counts(p, trace, Ahead()) && OnTime(p, [ev] + Ahead()) && WasDue(ev, p)
      requires forall k :: 0 <= k < |actions| ==> Fit(actions[k])
      modifies `cursor, `at, `ring, `trace, head`next, head`prev, pool`next, pool`prev, pool`timeout, pool`expire
      ensures Valid() && Faithful(p) && Progress(p, Ahead()) && cursor != null
      ensures trace == old(trace) + Rest(old(Linked()), ev, actions)
      ensures Within(old(|Ahead()|), old(Additions(trace)), AddsOf(actions))
      ensures actions == [] ==> ev.expire == AfterFire(ev.kinds, old(ev.expire), old(ev.timeout))
      ensures actions == [] ==> Linked() == old(Linked()) - if ev.kinds.persist then {} else {ev}
    {
      hide Circular, Faithful, Counts, OnTime, WasDue, Unlinked, Fit, Asked, LinkedAfter, Touched, IsDue;
      if ev.kinds.persist {
        Rearm(ev, p);
      } else {
        OneMore(p, trace, Deleted(ev, false));
        EventDel(ev, false, p);
      }
      Callback(actions, p);
    }

    /** What the pass does about the event at place `k`; `actions` are what its callback does if it is called. */
    method Examine(ev: Event, ghost k: nat, now: TimeVal, found: Found, actions: seq<Action>, ghost p: Plan)
      returns (fire: Fire, ghost round: Round)
      requires Valid() && 0 < k < |ring| && ring[k] == ev && Faithful(p) && Progress(p, From(ring, k))
      requires forall i :: 0 <= i < |actions| ==> Fit(actions[i])
      requires p.now == now && p.found == found
      modifies `cursor, `at, `ring, `trace, `signals
      modifies head`next, head`prev, pool`next, pool`prev, pool`timeout, pool`expire
      ensures Valid() && Faithful(p) && Progress(p, Ahead()) && cursor != null
      ensures fire == FireOf(ev.fd, ev.kinds, old(ev.expire), now, found)
      ensures signals == if fire == Signal then old(signals) - {ev.fd} else old(signals)
      ensures fire == Nothing ==> trace == old(trace) + [Examined(ev)] && ring == old(ring)
      ensures fire == Nothing ==> ev.expire == old(ev.expire)
      ensures round == Round(ev, fire, old(ev.expire), if fire == Nothing then [] else actions)
      ensures trace == old(trace) + RoundTrace(old(Linked()), round)
      ensures fire != Nothing && actions == [] ==> ev.expire == AfterFire(ev.kinds, old(ev.expire), old(ev.timeout))
      ensures |Ahead()| < |old(From(ring, k))| + (if fire == Nothing then 0 else AddsOf(actions))
      ensures Additions(trace) <= old(Additions(trace)) + if fire == Nothing then 0 else AddsOf(actions)
    {
      hide Circular, Faithful, Counts, OnTime, WasDue, Unlinked, Fit, Rest, RoundTrace, FireOf, Pooled, From,
           AddsOf, Additions, AfterFire, Ahead;
      InLinked(k);
      ghost var due, was, linked := ev.expire, trace, Linked();
      fire := FireOf(ev.fd, ev.kinds, ev.expire, now, found);
      StepPast(ev, k, fire, p);
      if fire == Signal { signals := signals - {ev.fd}; }
      if fire != Nothing { DoFire(ev, actions, p); }
      round := Round(ev, fire, due, if fire == Nothing then [] else actions);
      AsRound(was, linked, round, trace);
    }

    lemma InLinked(k: nat)
      requires Circular() && 0 < k < |ring|
      ensures ring[k] in Linked() && ring[k] != head
    {
    }

    /** Nothing happened yet, and everything lies ahead. */
    ghost method Begin(now: TimeVal, found: Found) returns (p: Plan)
      requires Valid() && cursor == null
      modifies `trace
      ensures Valid() && p == PlanFor(now, found) && trace == [] && Faithful(p)
      ensures Progress(p, From(ring, if |ring| == 1 then 0 else 1))
    {
      hide Circular, Unlinked, OnList;
      RingFacts();
      AllLinked();
      trace := [];
      p := PlanFor(now, found);
    }

    lemma AllLinked()
      requires Circular()
      ensures |ring| == |Linked()| + 1 && forall ev :: ev in Linked() <==> ev in ring[1..]
    {
      SizeOf(ring[1..], Linked());
    }

    /** The event at place `k` has its turn; what its callback does, if it fires, is the next of the script. */
    method MeetNext(ev: Event, ghost k: nat, now: TimeVal, found: Found, script: seq<seq<Action>>, calls: nat,
      ghost p: Plan)
      returns (calls': nat, ghost round: Round)
      requires Valid() && 0 < k < |ring| && ring[k] == ev && Faithful(p) && Progress(p, From(ring, k))
      requires AllFit(script) && calls <= |script| && p.now == now && p.found == found
      modifies `cursor, `at, `ring, `trace, `signals
      modifies head`next, head`prev, pool`next, pool`prev, pool`timeout, pool`expire
      ensures Valid() && Faithful(p) && Progress(p, Ahead()) && cursor != null
      ensures calls <= calls' <= |script|
      ensures calls' == if round.fire != Nothing && calls < |script| then calls + 1 else calls
      ensures round.ev == ev && round.due == old(ev.expire)
      ensures round.fire == FireOf(ev.fd, ev.kinds, round.due, now, found)
      ensures round.actions == if round.fire != Nothing && calls < |script| then script[calls] else []
      ensures trace == old(trace) + RoundTrace(old(Linked()), round)
      ensures signals == old(signals) - if round.fire == Signal then {ev.fd} else {}
      ensures Additions(trace) + AddsIn(script[calls'..]) <= old(Additions(trace)) + AddsIn(script[calls..])
      ensures AddsIn(script[calls'..]) <= AddsIn(script[calls..])
      ensures AddsIn(script[calls'..]) == AddsIn(script[calls..]) ==> |Ahead()| < |old(From(ring, k))|
    {
      hide Circular, Faithful, Progress, Unlinked, Fit, Exams, Additions, AddsOf, AddsIn, FireOf, AfterFire, Ahead,
           RoundTrace,
           From;
      var actions := if calls < |script| then script[calls] else [];
      NoAdds(script, calls);
      var fire;
      fire, round := Examine(ev, k, now, found, actions, p);
      calls' := if fire != Nothing && calls < |script| then calls + 1 else calls;
    }

    /**
     * Main result on dispatch, the inner loop of event_loop: whatever the callbacks delete and add, the list
     * stays one ring, nothing fires that is not linked or not due, and every event that was linked at the
     * start and that no callback touched is examined exactly once, and fires, once, exactly if its deadline
     * or what was found calls for it.  No more is examined than events were linked at the start and added
     * meanwhile; so the pass ends once callbacks stop adding, whatever they delete.  `script` says what
     * each callback does that is called.
     */
    method Dispatch(now: TimeVal, found: Found, script: seq<seq<Action>>) 
      returns (ghost p: Plan, ghost rounds: seq<Round>)
      requires Valid() && cursor == null
      requires AllFit(script)
      modifies `cursor, `at, `ring, `trace, `signals
      modifies head`next, head`prev, pool`next, pool`prev, pool`timeout, pool`expire
      ensures Valid() && cursor == null && p == old(PlanFor(now, found))
      ensures Passed(p, trace) && LinkedAfter(p.start, trace) == Linked() && Leaves(p, trace)
      ensures trace == TraceOf(p.start, rounds) && Scripted(rounds, script, now, found)
      ensures signals == old(signals) - Handled(rounds)
      ensures Exams(trace) <= |p.start| + Additions(trace) && Additions(trace) <= AddsIn(script)
    {
      hide Circular, Faithful, Progress, Unlinked, AllFit, Exams, Additions, AddsIn, TraceOf, Scripted, Handled, Calls,
           RoundTrace, FireOf;
      RingFacts();
      p := Begin(now, found);
      NothingYet();
      NoRounds(p.start, script, now, found);
      rounds := [];
      var ev, calls := head.next, 0;
      ghost var k: nat := if |ring| == 1 then 0 else 1;
      assert script[0..] == script;
      while ev != head
        invariant Valid() && Faithful(p) && k < |ring| && ev == ring[k] && Progress(p, From(ring, k))
        invariant AllFit(script)
        invariant 0 <= calls <= |script|
        invariant Additions(trace) + AddsIn(script[calls..]) <= AddsIn(script)
        invariant trace == TraceOf(p.start, rounds) && Scripted(rounds, script, now, found)
        invariant signals == old(signals) - Handled(rounds)
        invariant calls == if Calls(rounds) < |script| then Calls(rounds) else |script|
        decreases AddsIn(script[calls..]), |From(ring, k)|
      {
        RingFacts();
        ghost var round;
        TellsLinked(p);
        calls, round := MeetNext(ev, k, now, found, script, calls, p);
        OneRound(p.start, rounds, round, script, now, found);
        rounds := rounds + [round];
        ev := cursor;
        k := at;
      }
      cursor := null;
      AtEnd(p, k);
    }

    lemma NoRounds(start: set<Event>, script: seq<seq<Action>>, now: TimeVal, found: Found)
      ensures TraceOf(start, []) == [] && Calls([]) == 0 && Handled([]) == {} && Scripted([], script, now, found)
    {
    }

    lemma TellsLinked(p: Plan)
      requires Faithful(p)
      ensures LinkedAfter(p.start, trace) == Linked()
    {
    }

    lemma NothingYet()
      requires trace == []
      ensures Exams(trace) == Additions(trace) == 0
    {
    }

    lemma AtEnd(p: Plan, k: nat)
      requires Circular() && k < |ring| && ring[k] == head && Progress(p, From(ring, k)) && Faithful(p)
      ensures Passed(p, trace) && LinkedAfter(p.start, trace) == Linked() && Leaves(p, trace)
    {
      RingFacts();
      assert k == 0;
    }

    // -------------------------------------------------------------- how long to wait

    /**
     * The walk of event_loop over all events: the earliest deadline, or `tv` if that is earlier, how many
     * events are not internal, and which signals are waited for.
     */
    method Survey(tv: TimeVal) returns (earliest: TimeVal, outside: nat, wanted: set<int>)
      requires Valid() && Normal(tv)
      ensures Surveyed(Linked(), tv, earliest, outside, wanted)
    {
      hide Surveyed, Circular, Unlinked, Behind;
      RingFacts();
      earliest, outside, wanted := tv, 0, {};
      var ev := head.next;
      ghost var k: nat := if |ring| == 1 then 0 else 1;
      ghost var seen: set<Event> := {};
      NoneSeen(tv, k);
      while ev != head
        invariant k < |ring| && ev == ring[k] && Behind(k, seen) && Surveyed(seen, tv, earliest, outside, wanted)
        decreases |From(ring, k)|
      {
        SeeOne(k, seen);
        OneSurveyed(seen, tv, earliest, outside, wanted, ev);
        if ev.kinds.signal { wanted := wanted + {ev.fd}; }
        if Less(ev.expire, earliest) { earliest := ev.expire; }
        if !ev.isInternal { outside := outside + 1; }
        seen := seen + {ev};
        ev := ev.next;
        k := if k + 1 == |ring| then 0 else k + 1;
      }
      AllSeen(k, seen);
    }

    lemma NoneSeen(tv: TimeVal, k: nat)
      requires Circular() && Normal(tv) && k == if |ring| == 1 then 0 else 1
      ensures Behind(k, {}) && Surveyed({}, tv, tv, 0, {})
    {
    }

    /** `seen` are the events in front of place `k`; all of them if the walk is back at the sentinel. */
    ghost predicate Behind(k: nat, seen: set<Event>)
      reads `ring
    {
      && (forall ev :: ev in seen ==> ev in Linked())
      && (forall i :: 0 < i < (if k == 0 then |ring| else k) && i < |ring| ==> ring[i] in seen)
    }

    lemma SeeOne(k: nat, seen: set<Event>)
      requires Valid() && 0 <= k < |ring| && ring[k] != head && Behind(k, seen)
      ensures 0 < k && ring[k] in Linked() && Normal(ring[k].expire)
      ensures ring[k].next == ring[if k + 1 == |ring| then 0 else k + 1]
      ensures Behind(if k + 1 == |ring| then 0 else k + 1, seen + {ring[k]})
      ensures |From(ring, if k + 1 == |ring| then 0 else k + 1)| < |From(ring, k)|
    {
    }

    lemma AllSeen(k: nat, seen: set<Event>)
      requires Circular() && k < |ring| && ring[k] == head && Behind(k, seen)
      ensures seen == Linked()
    {
      RingFacts();
    }

    /** Where the walk over the deadlines starts. */
    function Horizon(nonblock: bool): (tv: TimeVal)
      ensures Normal(tv)
    {
      if nonblock then ZERO else NEVER
    }

    /** Whether select is followed by a pass: not if it reports nothing and no deadline is finite. */
    predicate Dispatches(sel: Selected, left: TimeVal) {
      sel.Interrupted? || (sel.Selected? && (sel.count > 0 || left.sec != HIGH_SEC))
    }

    /**
     * One round of event_loop: 1 without events other than internal ones, -1 if select fails, else 0.
     * `before` and `now` are the times around select, `arrived` the signals that came meanwhile, which
     * stay for a later round if this one has no pass.
     */
    method LoopOnce(nonblock: bool, before: TimeVal, sel: Selected, arrived: set<int>, now: TimeVal,
      script: seq<seq<Action>>)
      returns (r: int, wait: TimeVal, earliest: TimeVal, passed: bool, pending: bool,
        ghost rounds: seq<Round>)
      requires Valid() && cursor == null && Normal(before)
      requires AllFit(script)
      modifies `cursor, `at, `ring, `trace, `signals
      modifies head`next, head`prev, pool`next, pool`prev, pool`timeout, pool`expire
      ensures Valid() && cursor == null
      ensures r in {-1, 0, 1} && (r == 1 <==> forall ev :: ev in old(Linked()) ==> ev.isInternal)
      ensures r == -1 <==> r != 1 && sel.Broken?
      ensures r != 1 ==>
        EarliestOf(old(Now()).due, if nonblock then TimeVal(0, 0) else NEVER, earliest)
          && pending == SignalWaits(old(Now()))
      ensures r != 1 && pending ==> wait == ZERO
      ensures r != 1 && !pending && earliest.sec == HIGH_SEC ==> wait == TimeVal(100000, 0)
      ensures r != 1 && !pending && earliest.sec != HIGH_SEC ==>
        Micros(wait) == if Micros(earliest) > Micros(before) then Micros(earliest) - Micros(before) else 0
      ensures r != 1 && nonblock && 0 <= before.sec ==> Micros(wait) == 0
      ensures passed <==>
        && r == 0
        && (sel.Interrupted? || sel.count > 0
            || (earliest.sec != HIGH_SEC && (pending || Since(earliest, before).sec != HIGH_SEC)))
      ensures passed ==>
        var p := old(PlanFor(now, FoundBy(sel, signals + arrived)));
        && Passed(p, trace) && LinkedAfter(p.start, trace) == Linked() && Leaves(p, trace)
        && trace == TraceOf(p.start, rounds) && Scripted(rounds, script, now, p.found)
        && signals == p.found.signals - Handled(rounds)
      ensures r == 1 ==> signals == old(signals)
      ensures r != 1 && !passed ==> signals == old(signals) + arrived
      ensures !passed ==> ring == old(ring) && trace == old(trace) && unchanged(pool`expire, pool`timeout)
    {
      hide Circular, Unlinked, Fit, Passed, Leaves, LinkedAfter, TraceOf, Scripted, Handled, Surveyed, EarliestOf,
           SignalWaits;
      RingFacts();
      wait, earliest, passed, pending := ZERO, Horizon(nonblock), false, false;
      if head.next == head {
        Alone();
        return 1, wait, earliest, passed, pending, [];
      }
      var outside, wanted;
      earliest, outside, wanted := Survey(Horizon(nonblock));
      SurveyIs(Horizon(nonblock), earliest, outside, wanted);
      if outside == 0 { return 1, wait, earliest, passed, pending, []; }
      var ready := exists n :: n in signals && n in wanted;
      pending := ready;
      var left;
      wait, left := WaitFor(earliest, before, ready);
      signals := signals + arrived;
      if sel.Broken? { return -1, wait, earliest, passed, pending, []; }
      passed := Dispatches(sel, left);
      r, rounds := 0, [];
      if passed {
        ghost var p;
        p, rounds := Dispatch(now, FoundBy(sel, signals), script);
      }
    }

    lemma SurveyIs(tv: TimeVal, earliest: TimeVal, outside: nat, wanted: set<int>)
      requires Surveyed(Linked(), tv, earliest, outside, wanted)
      ensures EarliestOf(Now().due, tv, earliest) && Normal(earliest) && !Less(tv, earliest)
      ensures (exists n :: n in signals && n in wanted) <==> SignalWaits(Now())
      ensures outside == 0 <==> forall ev :: ev in Linked() ==> ev.isInternal
    {
      var due := Now().due;
      assert due.Keys == Linked() && forall e :: e in Linked() ==> due[e] == e.expire;
      if n :| n in signals && n in wanted {
        var e :| e in Linked() && e.kinds.signal && e.fd == n;
        assert e in due;
      }
      if SignalWaits(Now()) {
        var e :| e in due && e.kinds.signal && e.fd in signals;
        assert e.fd in wanted;
      }
    }

    /** The deadlines and timeouts at the start of the loop are those of the first pass, and still there without one. */
    ghost predicate Standing(passes: seq<Pass>, due: map<Event, TimeVal>, every: map<Event, TimeVal>)
      reads due.Keys`expire, due.Keys`timeout
      reads (if passes == [] then {} else passes[|passes| - 1].plan.start)`expire
      reads (if passes == [] then {} else passes[|passes| - 1].plan.start)`timeout
    {
      && due.Keys == every.Keys
      && if passes == [] then forall ev :: ev in due ==> ev.expire == due[ev] && ev.timeout == every[ev]
         else
           var last := passes[|passes| - 1];
           passes[0].plan.due == due && passes[0].plan.every == every && Leaves(last.plan, last.trace)
    }

    /** What a pass that starts now starts with. */
    lemma StartsWith(passes: seq<Pass>, due: map<Event, TimeVal>, every: map<Event, TimeVal>, p: Plan)
      requires Standing(passes, due, every) && Linked() == LeftBy(due.Keys, passes) && p == PlanFor(p.now, p.found)
      ensures if passes == [] then p.due == due && p.every == every else Follows(passes[|passes| - 1], p)
      ensures p.start == LeftBy(due.Keys, passes)
    {
      hide Touched, Moved, LeftBy;
      if passes == [] { StartsEmpty(due.Keys); }
    }

    lemma StartsEmpty(start: set<Event>)
      ensures LeftBy(start, []) == start
    {
    }

    /** Main result on timers, at the end of the loop. */
    lemma SteadyNow(passes: seq<Pass>, turns: seq<Turn>, due: map<Event, TimeVal>, every: map<Event, TimeVal>,
      ev: Event)
      requires Standing(passes, due, every) && History(due.Keys, passes, turns) && Linked() == LeftBy(due.Keys, passes)
      requires ev in due && ev.kinds.persist && Undisturbed(passes, ev) && Normal(due[ev]) && Normal(every[ev])
      ensures ev in Linked() && Rearmed(ev.expire, due[ev], every[ev], FiredIn(passes, ev))
    {
      hide History, Passed, LinkedAfter, Touched, TimesFired, Moved, Follows, Rearmed;
      IsRearmed(due[ev], every[ev], FiredIn(passes, ev));
      if passes != [] {
        var n := |passes| - 1;
        HistoryAt(due.Keys, passes, turns, 0);
        HistoryAt(due.Keys, passes, turns, n);
        assert passes[..n + 1] == passes;
        FiredInOne(passes, n, ev);
        SteadyTimer(due.Keys, passes, turns, ev, n);
        SteadyOnce(passes[n], ev, due[ev], every[ev], FiredIn(passes[..n], ev));
      }
    }

    /**
     * Main result on the loop, event_loop over the turns that the world takes: its passes follow each other, each
     * starting with what the one before left linked, and keep what a pass promises; a persistent event that no
     * callback touches stays, and its deadline is that of the start and a timeout for each time that it fired.
     * It ends with 1 when only internal events are linked, with -1 when a select fails, and with 0 after one turn
     * if `once`, or when there are no more turns to look at.
     */
    method Loop(nonblock: bool, once: bool, turns: seq<Turn>) 
      returns (r: int, n: nat, ghost passes: seq<Pass>, ghost states: seq<State>, ghost done: seq<seq<Pass>>)
      requires Valid() && cursor == null && (nonblock ==> once)
      requires forall k :: 0 <= k < |turns| ==> Normal(turns[k].before) && AllFit(turns[k].script)
      modifies `cursor, `at, `ring, `trace, `signals
      modifies head`next, head`prev, pool`next, pool`prev, pool`timeout, pool`expire
      ensures Valid() && cursor == null && n <= |turns| && r in {-1, 0, 1}
      ensures History(old(Linked()), passes, turns[..n]) && Linked() == LeftBy(old(Linked()), passes)
      ensures forall ev :: ev in old(Linked()) && ev.kinds.persist && Undisturbed(passes, ev) ==>
        ev in Linked() && Rearmed(ev.expire, old(ev.expire), old(ev.timeout), FiredIn(passes, ev))
      ensures TurnsTaken(states, nonblock, turns, r, done) && |done| == n && passes == AllOf(done)
      ensures |states| == n + 1 && states[0] == old(Now()) && states[n] == Now()
      ensures r == 1 ==> forall ev :: ev in Linked() ==> ev.isInternal
      ensures r == -1 ==> 0 < n && turns[n - 1].sel.Broken?
      ensures r == 0 ==> (once && n == 1) || n == |turns|
    {
      hide Circular, Pooled, Unlinked, OnList, Fit, Surveyed, Dispatches, Passed, LinkedAfter, History, Leaves, Follows,
           Undisturbed, Rearmed, Standing, LeftBy, TakesTurn, Now, FiredIn,
           TurnsTaken, AllOf;
      r, n, passes, states, done := 0, 0, [], [Now()], [];
      ghost var due := map ev | ev in Linked() :: ev.expire;
      ghost var every := map ev | ev in Linked() :: ev.timeout;
      assert due.Keys == Linked();
      AllNormal();
      NoHistory(Linked());
      NoTurns(Now(), nonblock, turns);
      StartsEmpty(Linked());
      NotYet(due, every);
      while r == 0 && n < |turns| && !(once && n == 1)
        invariant Valid() && cursor == null && n <= |turns| && r in {-1, 0, 1}
        invariant forall k :: 0 <= k < |turns| ==> AllFit(turns[k].script)
        invariant History(due.Keys, passes, turns[..n]) && Linked() == LeftBy(due.Keys, passes)
        invariant TurnsTaken(states, nonblock, turns, r, done) && |done| == n && passes == AllOf(done)
        invariant |states| == n + 1 && states[0] == old(Now()) && states[n] == Now()
        invariant Standing(passes, due, every)
        invariant r == 1 ==> forall ev :: ev in Linked() ==> ev.isInternal
        invariant r == -1 ==> 0 < n && turns[n - 1].sel.Broken?
        decreases |turns| - n
      {
        ghost var more;
        r, more := TakeTurn(nonblock, turns, n, passes, due, every);
        OneTurn(states, nonblock, turns, r, done, more, Now());
        states, done := states + [Now()], done + [more];
        passes := passes + more;
        n := n + 1;
      }
      AllSteady(passes, turns[..n], due, every);
    }

    lemma AllSteady(passes: seq<Pass>, turns: seq<Turn>, due: map<Event, TimeVal>, every: map<Event, TimeVal>)
      requires Standing(passes, due, every) && History(due.Keys, passes, turns) && Linked() == LeftBy(due.Keys, passes)
      requires forall ev :: ev in due ==> Normal(due[ev]) && Normal(every[ev])
      ensures forall ev :: ev in due && ev.kinds.persist && Undisturbed(passes, ev) ==>
        ev in Linked() && Rearmed(ev.expire, due[ev], every[ev], FiredIn(passes, ev))
    {
      hide History, Rearmed, FiredIn, Undisturbed, LeftBy;
      forall ev | ev in due && ev.kinds.persist && Undisturbed(passes, ev)
        ensures ev in Linked() && Rearmed(ev.expire, due[ev], every[ev], FiredIn(passes, ev))
      {
        SteadyNow(passes, turns, due, every, ev);
      }
    }

    lemma AllNormal()
      requires Valid()
      ensures forall ev :: ev in Linked() ==> Normal(ev.expire) && Normal(ev.timeout)
    {
    }

    lemma NotYet(due: map<Event, TimeVal>, every: map<Event, TimeVal>)
      requires due == (map ev | ev in Linked() :: ev.expire) && every == map ev | ev in Linked() :: ev.timeout
      ensures Standing([], due, every)
    {
    }

    lemma LeadsOn(a: State, t: Turn, pass: Pass)
      requires pass.plan == Plan(a.due.Keys, a.due, a.every, t.now, FoundBy(t.sel, a.signals + t.arrived))
      requires Passed(pass.plan, pass.trace) && LinkedAfter(pass.plan.start, pass.trace) == Linked()
      requires Leaves(pass.plan, pass.trace) && pass.trace == TraceOf(pass.plan.start, pass.rounds)
      requires Scripted(pass.rounds, t.script, t.now, pass.plan.found)
      requires signals == pass.plan.found.signals - Handled(pass.rounds)
      ensures PassLeads(a, t, pass, Now())
    {
      hide Passed, LinkedAfter, TraceOf, Scripted, Touched, Moved, Handled;
    }

    lemma TurnIs(a: State, nonblock: bool, t: Turn, n: nat, r: int, more: seq<Pass>, earliest: TimeVal, pending: bool,
                 passed: bool)
      requires Normal(t.before) && a.due.Keys == a.every.Keys
      requires r == if forall ev :: ev in a.due ==> ev.isInternal then 1 else if t.sel.Broken? then -1 else 0
      requires r != 1 ==> EarliestOf(a.due, if nonblock then ZERO else NEVER, earliest) && pending == SignalWaits(a)
      requires passed <==>
        && r == 0
        && (t.sel.Interrupted? || t.sel.count > 0
            || (earliest.sec != HIGH_SEC && (pending || Since(earliest, t.before).sec != HIGH_SEC)))
      requires if passed then |more| == 1 && more[0].turn == n && PassLeads(a, t, more[0], Now())
               else more == [] && Now() == a.(signals := if r == 1 then a.signals else a.signals + t.arrived)
      ensures TakesTurn(a, nonblock, t, n, r, more, Now())
    {
      hide PassLeads, Since;
    }

    /** One turn, with the history it adds. */
    method TakeTurn(nonblock: bool, turns: seq<Turn>, n: nat, ghost passes: seq<Pass>, ghost due: map<Event, TimeVal>,
                    ghost every: map<Event, TimeVal>)
      returns (r: int, ghost more: seq<Pass>)
      requires Valid() && cursor == null && n < |turns| && Normal(turns[n].before) && AllFit(turns[n].script)
      requires History(due.Keys, passes, turns[..n]) && Linked() == LeftBy(due.Keys, passes)
      requires Standing(passes, due, every)
      modifies `cursor, `at, `ring, `trace, `signals
      modifies head`next, head`prev, pool`next, pool`prev, pool`timeout, pool`expire
      ensures Valid() && cursor == null && r in {-1, 0, 1}
      ensures History(due.Keys, passes + more, turns[..n + 1]) && Linked() == LeftBy(due.Keys, passes + more)
      ensures Standing(passes + more, due, every)
      ensures TakesTurn(old(Now()), nonblock, turns[n], n, r, more, Now())
      ensures r == 1 ==> forall ev :: ev in Linked() ==> ev.isInternal
      ensures r == -1 ==> turns[n].sel.Broken?
    {
      hide Circular, Pooled, Unlinked, OnList, Fit, Surveyed, Dispatches, Passed, LinkedAfter, History, Leaves, Follows,
           TakesTurn, EarliestOf,
           SignalWaits, PassLeads, Since, TraceOf, Scripted, Handled, Touched;
      var t := turns[n];
      ghost var a := Now();
      ghost var p := PlanFor(t.now, FoundBy(t.sel, signals + t.arrived));
      StartsWith(passes, due, every, p);
      var wait, earliest, passed, pending;
      ghost var rounds;
      r, wait, earliest, passed, pending, rounds := LoopOnce(nonblock, t.before, t.sel, t.arrived, t.now, t.script);
      assert turns[..n + 1] == turns[..n] + [t];
      more := if passed then [Pass(p, trace, n, rounds)] else [];
      LongerHistory(due.Keys, passes, turns[..n], t, more);
      if passed { LeadsOn(a, t, more[0]); }
      TurnIs(a, nonblock, t, n, r, more, earliest, pending, passed);
      if !passed { assert passes + more == passes; }
    }

    lemma Alone()
      requires Circular() && head.next == head
      ensures Linked() == {}
    {
    }
  }

  /** A loop with one event, for the signal `fd`. */
  method WantsSignal(fd: int) returns (loop: EventLoop, ev: Event)
    ensures fresh(loop) && fresh(loop.pool) && fresh(loop.head) && loop.Valid() && loop.cursor == null
    ensures ev.fd == fd && ev.kinds == Kinds(false, false, true, true) && !ev.isInternal && ev.expire.sec == HIGH_SEC
    ensures loop.Linked() == {ev} && loop.trace == [Added(ev)]
  {
    hide EventLoop.Circular, EventLoop.Unlinked;
    loop := new EventLoop();
    ev := loop.NewEvent(fd, Kinds(false, false, true, true), false);
    loop.EventAdd(ev, None, ZERO, Plan({}, map[], map[], ZERO, Found(true, {}, {}, {}, {})));
  }

  /**
   * A signal that an event waits for is there, and the wait is cut to nothing because of it, but with no
   * finite deadline and nothing found by select there is no pass: the event does not fire.
   */
  method MissedSignal(fd: int, before: TimeVal, now: TimeVal)
    returns (loop: EventLoop, ev: Event, passed: bool, pending: bool)
    requires Normal(before)
    ensures loop.Valid() && ev in loop.Linked() && ev.kinds.signal && ev.fd in loop.signals
    ensures pending && !passed && loop.trace == [Added(ev)]
  {
    hide EventLoop.Valid, Passed, LinkedAfter, Plus, Since;
    loop, ev := WantsSignal(fd);
    loop.signals := {fd};
    var r, wait, earliest;
    ghost var rounds;
    r, wait, earliest, passed, pending, rounds := loop.LoopOnce(false, before, Selected(0, {}, {}, {}), {}, now, []);
  }

  /** The time given to select, from the earliest deadline `tv`. */
  method WaitFor(tv: TimeVal, now: TimeVal, pending: bool) returns (wait: TimeVal, left: TimeVal)
    requires Normal(tv) && Normal(now)
    ensures Normal(wait)
    ensures pending ==> wait == ZERO && left == tv
    ensures !pending && tv.sec == HIGH_SEC ==> wait == TimeVal(100000, 0) && left == tv
    ensures !pending && tv.sec != HIGH_SEC ==> left == Since(tv, now)
    ensures !pending && tv.sec != HIGH_SEC ==>
      Micros(wait) == if Micros(tv) > Micros(now) then Micros(tv) - Micros(now) else 0
  {
    left := tv;
    if pending {
      wait := ZERO;
    } else if tv.sec == HIGH_SEC {
      wait := TimeVal(100000, 0);
    } else {
      left := Since(tv, now);
      wait := if left.sec < 0 then ZERO else left;
    }
  }
}
