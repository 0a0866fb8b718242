/** When an item or a location gets a second log entry: the single receive handler and
    the checks of own locations log before they mark or clear. */
module Repeats {
  import opened Collections
  import opened Options
  import opened Exchange
  import opened Handlers
  import opened WholeRuns
  import opened PrimaryKeys
  import opened Blocking
  import opened Entries
  import Crashes

  /* Checks */

  /** Checking the location now would write a log entry: it is not cleared, and holds our
      own item, or none and the client asked for own items and the seed has three numbers
      for it. */
  predicate Loggable(w: World, s: State, loc: int) {
    && loc !in s.cleared
    && var p := PlacedAt(w, loc);
       if p.Some? then p.value.owner == w.playerID
       else s.flags / 2 % 2 == 1 && loc in w.ownLocations && |w.ownLocations[loc]| >= 3
  }

  /** What a check leaves that decides about later ones. */
  lemma CheckKeeps(w: World, s: State, loc: int, other: int)
    ensures var t := Execute(s, CheckPlan(w, s, loc)).state;
            && t.flags == s.flags && s.cleared <= t.cleared
            && (loc != other ==> (other in t.cleared <==> other in s.cleared))
            && (!Loggable(w, s, other) ==> !Loggable(w, t, other))
            && (Loggable(w, s, other) && loc != other ==> Loggable(w, t, other))
  {
    if Foreign(w, loc) && loc !in s.cleared { ForeignCheckEffect(w, s, loc); }
    else if CheckPlan(w, s, loc) != [] { OwnCheckEffect(w, s, loc); }
  }

  lemma CheckIsSilent(w: World, s: State, loc: int, other: int)
    requires loc != other || !Loggable(w, s, loc)
    ensures Silent(CheckPlan(w, s, loc), Checked(other))
  {
  }

  /** Checks that do not concern the location, or cannot log it any more. */
  lemma {:induction false} ChecksAreSilent(w: World, s: State, locs: seq<int>, loc: int)
    requires loc !in locs || !Loggable(w, s, loc)
    ensures Silent(ChecksPlan(w, s, locs), Checked(loc))
    decreases |locs|
  {
    if locs != [] {
      CheckIsSilent(w, s, locs[0], loc);
      CheckKeeps(w, s, locs[0], loc);
      var o := Execute(s, CheckPlan(w, s, locs[0]));
      if o.ok { ChecksAreSilent(w, o.state, locs[1..], loc); }
    }
  }

  lemma {:induction false} OtherChecksKeepLoggable(w: World, s: State, locs: seq<int>, loc: int)
    requires loc !in locs && Loggable(w, s, loc)
    ensures Loggable(w, Execute(s, ChecksPlan(w, s, locs)).state, loc)
    decreases |locs|
  {
    if locs != [] {
      ChecksUnfold(w, s, locs);
      CheckKeeps(w, s, locs[0], loc);
      var o := Execute(s, CheckPlan(w, s, locs[0]));
      if o.ok { OtherChecksKeepLoggable(w, o.state, locs[1..], loc); }
    }
  }

  lemma SilentPrefix(plan: seq<Action>, k: nat, o: Origin)
    requires k <= |plan| && Silent(plan, o)
    ensures Silent(plan[..k], o)
  {
    assert forall a :: a in plan[..k] ==> a in plan;
  }

  /** The plan of a list that fails early is the plan of its failing part. */
  lemma {:induction false} FailedChecksPlan(w: World, s: State, a: seq<int>, b: seq<int>)
    requires !Execute(s, ChecksPlan(w, s, a)).ok
    ensures ChecksPlan(w, s, a + b) == ChecksPlan(w, s, a)
    decreases |a|
  {
    if a != [] {
      ChecksUnfold(w, s, a);
      assert (a + b)[1..] == a[1..] + b;
      var o := Execute(s, CheckPlan(w, s, a[0]));
      if o.ok { FailedChecksPlan(w, o.state, a[1..], b); }
    }
  }

  /** A loggable location checked first: its entry is the first thing written. */
  lemma FirstCheckCounts(w: World, s: State, loc: int, after: seq<int>, k: nat)
    requires Loggable(w, s, loc) && k <= |ChecksPlan(w, s, [loc] + after)|
    ensures ChecksPlan(w, s, [loc] + after) != []
    ensures Count(Execute(s, ChecksPlan(w, s, [loc] + after)[..k]).state, Checked(loc)) ==
            Count(s, Checked(loc)) + if k > 0 then 1 else 0
  {
    var first := CheckPlan(w, s, loc);
    var plan := ChecksPlan(w, s, [loc] + after);
    OwnCheckEffect(w, s, loc);
    var o := Execute(s, first);
    assert ([loc] + after)[1..] == after;
    var rest := ChecksPlan(w, o.state, after);
    assert plan == first + rest;
    ChecksAreSilent(w, o.state, after, loc);
    var log := first[0];
    assert log == Log(log.items, [Checked(loc)]);
    assert forall i :: 0 < i < |first| ==> !first[i].Log?;
    if k > 0 {
      var more := plan[1..k];
      assert plan[..k] == [log] + more;
      ExecuteCons(s, log, more);
      forall a | a in more && a.Log?
        ensures Checked(loc) !in a.why
      {
        var i :| 0 <= i < |more| && more[i] == a;
        assert a == plan[i + 1] && i + 1 >= |first|;
        assert a == rest[i + 1 - |first|];
      }
      SilentKeepsCount(Do(s, log).value, more, Checked(loc));
      CountAppend(s.origins, [Checked(loc)], Checked(loc));
    }
  }

  /** The event writes an entry for the location: it is loggable, the checks before its
      first place in the list go through, and the event gets past its log write. */
  ghost predicate LogsCheck(w: World, s: State, e: Event, loc: int) {
    && !e.Reconnect? && e.m.LocationChecks? && Loggable(w, s, loc)
    && exists i :: FirstAt(e.m.locations, i, loc) && Checkpoint(w, s, e.m.locations[..i], e)
  }

  predicate FirstAt(locs: seq<int>, i: int, loc: int) {
    0 <= i < |locs| && locs[i] == loc && loc !in locs[..i]
  }

  ghost predicate Checkpoint(w: World, s: State, before: seq<int>, e: Event) {
    Execute(s, ChecksPlan(w, s, before)).ok && Past(e, |ChecksPlan(w, s, before)|)
  }

  lemma {:induction false} HasFirst(locs: seq<int>, loc: int)
    requires loc in locs
    ensures exists i :: FirstAt(locs, i, loc)
    decreases |locs|
  {
    if locs[0] == loc {
      assert FirstAt(locs, 0, loc);
    } else {
      HasFirst(locs[1..], loc);
      var i :| FirstAt(locs[1..], i, loc);
      assert locs[..i + 1] == [locs[0]] + locs[1..][..i];
      assert FirstAt(locs, i + 1, loc);
    }
  }

  lemma FirstIsUnique(locs: seq<int>, i: int, j: int, loc: int)
    requires FirstAt(locs, i, loc) && FirstAt(locs, j, loc)
    ensures i == j
  {
  }

  /** A list of checks cut after k actions, with the location first at i. */
  lemma ListCounts(w: World, s: State, locs: seq<int>, i: nat, loc: int, k: nat)
    requires Loggable(w, s, loc) && FirstAt(locs, i, loc) && k <= |ChecksPlan(w, s, locs)|
    ensures var before := ChecksPlan(w, s, locs[..i]);
            && (Execute(s, before).ok ==> |before| < |ChecksPlan(w, s, locs)|)
            && Count(Execute(s, ChecksPlan(w, s, locs)[..k]).state, Checked(loc)) ==
               Count(s, Checked(loc)) + if Execute(s, before).ok && k > |before| then 1 else 0
  {
    var before, after := ChecksPlan(w, s, locs[..i]), locs[i + 1..];
    SplitAround(locs, i);
    ChecksAreSilent(w, s, locs[..i], loc);
    if Execute(s, before).ok {
      var t := Execute(s, before).state;
      ChecksPlanConcat(w, s, locs[..i], [loc] + after);
      OtherChecksKeepLoggable(w, s, locs[..i], loc);
      var tail := ChecksPlan(w, t, [loc] + after);
      CutConcat(s, before, tail, k);
      FirstCheckCounts(w, t, loc, after, if k <= |before| then 0 else k - |before|);
      if k <= |before| {
        SilentPrefix(before, k, Checked(loc));
        SilentKeepsCount(s, before[..k], Checked(loc));
      } else {
        SilentKeepsCount(s, before, Checked(loc));
      }
    } else {
      FailedChecksPlan(w, s, locs[..i], [loc] + after);
      SilentPrefix(before, k, Checked(loc));
      SilentKeepsCount(s, before[..k], Checked(loc));
    }
  }

  lemma OtherEventsCheckNothing(w: World, s: State, e: Event, loc: int)
    requires ValidWorld(w) && !e.Reconnect?
    requires e.m.LocationChecks? ==> loc !in e.m.locations || !Loggable(w, s, loc)
    ensures Count(Step(w, s, e), Checked(loc)) == Count(s, Checked(loc))
  {
    StepTables(w, s, e);
    if e.m.LocationChecks? { ChecksAreSilent(w, s, e.m.locations, loc); }
    else { OtherPlansCheckNothing(w, s, e.m, loc); }
    SilentKeepsCount(s, Part(w, s, e), Checked(loc));
  }

  lemma OtherPlansCheckNothing(w: World, s: State, m: Message, loc: int)
    requires ValidWorld(w) && !m.LocationChecks?
    ensures Silent(Plan(w, s, m), Checked(loc))
  {
    match m
    case DataReceive(item, from, fromID) =>
      assert forall a :: a in Plan(w, s, m) && a.Log? ==> a.why == [Received(item)];
    case DatasReceive(items, from) =>
      var why := ReceivedOrigins(Accepted(s.received, items));
      assert forall a :: a in Plan(w, s, m) && a.Log? ==> a.why == why;
      assert forall o :: o in why ==> o.Received?;
    case Collect =>
      var plan := CollectPlan(w, s);
      assert forall a :: a in plan && a.Log? ==> a == plan[0];
      assert forall o :: o in plan[0].why ==> o.Collected?;
    case _ =>
  }

  /** The checks of one event, with the location first at i. */
  lemma ListEventCounts(w: World, s: State, e: Event, i: nat, loc: int)
    requires !e.Reconnect? && e.m.LocationChecks?
    requires Loggable(w, s, loc) && FirstAt(e.m.locations, i, loc)
    ensures var plan := ChecksPlan(w, s, e.m.locations);
            Count(Execute(s, plan[..EventCut(plan, e)]).state, Checked(loc)) ==
            Count(s, Checked(loc)) + if Checkpoint(w, s, e.m.locations[..i], e) then 1 else 0
  {
    var locs := e.m.locations;
    var plan, before := ChecksPlan(w, s, locs), ChecksPlan(w, s, locs[..i]);
    ListCounts(w, s, locs, i, loc, EventCut(plan, e));
    if Execute(s, before).ok { PastCut(plan, e, |before|); }
  }

  lemma CheckedTables(w: World, s: State, e: Event)
    requires ValidWorld(w) && !e.Reconnect? && e.m.LocationChecks?
    ensures var plan := ChecksPlan(w, s, e.m.locations);
            Step(w, s, e).origins == Execute(s, plan[..EventCut(plan, e)]).state.origins
  {
    StepTables(w, s, e);
  }

  lemma LogsCheckAt(w: World, s: State, e: Event, i: nat, loc: int)
    requires !e.Reconnect? && e.m.LocationChecks? && Loggable(w, s, loc) && FirstAt(e.m.locations, i, loc)
    ensures LogsCheck(w, s, e, loc) <==> Checkpoint(w, s, e.m.locations[..i], e)
  {
    if LogsCheck(w, s, e, loc) {
      var j :| FirstAt(e.m.locations, j, loc) && Checkpoint(w, s, e.m.locations[..j], e);
      FirstIsUnique(e.m.locations, i, j, loc);
    }
  }

  /** In every state, an event adds one entry for a checked location if it logs it. */
  lemma CheckEntriesAfter(w: World, s: State, e: Event, loc: int)
    requires ValidWorld(w)
    ensures Count(Step(w, s, e), Checked(loc)) ==
            Count(s, Checked(loc)) + if LogsCheck(w, s, e, loc) then 1 else 0
  {
    if e.Reconnect? {
    } else if e.m.LocationChecks? && loc in e.m.locations && Loggable(w, s, loc) {
      HasFirst(e.m.locations, loc);
      var i :| FirstAt(e.m.locations, i, loc);
      CheckedTables(w, s, e);
      ListEventCounts(w, s, e, i, loc);
      LogsCheckAt(w, s, e, i, loc);
    } else {
      OtherEventsCheckNothing(w, s, e, loc);
    }
  }

  /* At most one entry */

  /** The origins that should occur once: receipts and checks. */
  predicate Unique(o: Origin) {
    o.Received? || o.Checked?
  }

  ghost predicate LogsOrigin(w: World, s: State, e: Event, o: Origin)
    requires Unique(o)
  {
    match o case Received(item) => Logs(w, s, e, item) case Checked(loc) => LogsCheck(w, s, e, loc)
  }

  ghost predicate AtMostOnce(s: State) {
    forall o :: Unique(o) ==> Count(s, o) <= 1
  }

  /** The event logs something that is in the log already: an item that is not marked, or
      a location that is not cleared. */
  ghost predicate RepeatsEntry(w: World, s: State, e: Event) {
    exists o :: Unique(o) && o in s.origins && LogsOrigin(w, s, e, o)
  }

  lemma OriginCountAfter(w: World, s: State, e: Event, o: Origin)
    requires ValidWorld(w) && Unique(o)
    ensures Count(Step(w, s, e), o) == Count(s, o) + if LogsOrigin(w, s, e, o) then 1 else 0
  {
    match o
    case Received(item) => EntriesAfter(w, s, e, item);
    case Checked(loc) => CheckEntriesAfter(w, s, e, loc);
  }

  /** What is logged again was left unmarked or uncleared. */
  lemma OnlyUnfinishedRepeat(w: World, s: State, e: Event, o: Origin)
    requires Unique(o) && LogsOrigin(w, s, e, o)
    ensures match o case Received(item) => item !in s.received case Checked(loc) => loc !in s.cleared
  {
  }

  /** In the log, but not marked as received: what a further delivery logs again. */
  predicate Unmarked(s: State, item: Item) {
    Received(item) in s.origins && item !in s.received
  }

  /** The process dies in a single delivery between its log write and its mark. */
  predicate CutsReceipt(w: World, s: State, e: Event, item: Item) {
    && e.Crash? && e.m.DataReceive? && e.m.item == item && Accepts(w, s, item, e.m.fromID)
    && 0 < e.done <= MarkPosition(s)
  }

  /** In every state, an item is unmarked afterwards exactly when it was and the event
      does not mark it, or the event is such a crash. */
  lemma UnmarkedIff(w: World, s: State, e: Event, item: Item)
    requires ValidWorld(w)
    ensures Unmarked(Step(w, s, e), item) <==>
            (Unmarked(s, item) && !Stamps(w, s, e, item)) || CutsReceipt(w, s, e, item)
  {
    EntriesAfter(w, s, e, item);
    ReceivedAfter(w, s, e, item);
    if Logs(w, s, e, item) && e.m.DatasReceive? {
      var accepted := Accepted(s.received, e.m.items);
      var i :| 0 <= i < |accepted| && accepted[i] == item;
      assert Past(e, i);
    }
  }

  /** From any state with at most one entry each, an event keeps it so exactly when it
      does not log again. */
  lemma StepRepeatsIff(w: World, s: State, e: Event)
    requires ValidWorld(w) && AtMostOnce(s)
    ensures AtMostOnce(Step(w, s, e)) <==> !RepeatsEntry(w, s, e)
  {
    forall o | Unique(o)
      ensures Count(Step(w, s, e), o) == Count(s, o) + if LogsOrigin(w, s, e, o) then 1 else 0
    {
      OriginCountAfter(w, s, e, o);
    }
    if RepeatsEntry(w, s, e) {
      var o :| Unique(o) && o in s.origins && LogsOrigin(w, s, e, o);
      assert Count(Step(w, s, e), o) == 2;
    }
  }

  /* Runs */

  /** How many events of a run log the origin. */
  ghost function LogEvents(w: World, s: State, events: seq<Event>, o: Origin): nat
    requires ValidWorld(w) && Unique(o)
    decreases |events|
  {
    if events == [] then 0
    else (if LogsOrigin(w, s, events[0], o) then 1 else 0) + LogEvents(w, Step(w, s, events[0]), events[1..], o)
  }

  /** In every run, from every state, each item and each location has exactly as many new
      entries as there are events that log it. */
  lemma {:induction false} EntriesAfterRun(w: World, s: State, events: seq<Event>, o: Origin)
    requires ValidWorld(w) && Unique(o)
    ensures Count(Run(w, s, events), o) == Count(s, o) + LogEvents(w, s, events, o)
    decreases |events|
  {
    if events != [] {
      OriginCountAfter(w, s, events[0], o);
      EntriesAfterRun(w, Step(w, s, events[0]), events[1..], o);
    }
  }

  ghost predicate RepeatsAt(w: World, s: State, events: seq<Event>, i: nat)
    requires ValidWorld(w) && i < |events|
  {
    RepeatsEntry(w, Run(w, s, events[..i]), events[i])
  }

  lemma SecondEntryStays(w: World, s: State, events: seq<Event>)
    requires ValidWorld(w) && !AtMostOnce(s)
    ensures !AtMostOnce(Run(w, s, events))
  {
    var o :| Unique(o) && Count(s, o) > 1;
    EntriesAfterRun(w, s, events, o);
  }

  /** A run keeps at most one entry each exactly when none of its events logs again. */
  lemma {:induction false} RunRepeatsIff(w: World, s: State, events: seq<Event>)
    requires ValidWorld(w) && AtMostOnce(s)
    ensures AtMostOnce(Run(w, s, events)) <==> forall i :: 0 <= i < |events| ==> !RepeatsAt(w, s, events, i)
    decreases |events|
  {
    if events != [] {
      var t, rest := Step(w, s, events[0]), events[1..];
      StepRepeatsIff(w, s, events[0]);
      assert events[..0] == [];
      assert RepeatsAt(w, s, events, 0) <==> RepeatsEntry(w, s, events[0]);
      forall i | 0 <= i < |rest|
        ensures RepeatsAt(w, t, rest, i) <==> RepeatsAt(w, s, events, i + 1)
      {
        RunPrefix(w, s, events, i);
      }
      if AtMostOnce(t) {
        RunRepeatsIff(w, t, rest);
        if forall i :: 0 <= i < |rest| ==> !RepeatsAt(w, t, rest, i) {
          forall i | 0 < i < |events|
            ensures !RepeatsAt(w, s, events, i)
          {
            assert RepeatsAt(w, t, rest, i - 1) <==> RepeatsAt(w, s, events, i - 1 + 1);
          }
        }
      } else {
        SecondEntryStays(w, t, rest);
      }
    }
  }

  /** A new savefile has at most one entry each. */
  lemma InitialAtMostOnce(precollected: seq<int>)
    ensures AtMostOnce(Initial(precollected))
  {
    var s := Initial(precollected);
    assert forall o :: o in multiset(s.origins) ==> o == Precollected;
  }

  /* Instances */

  lemma TwoEvents(w: World, s: State, e: Event, d: Event)
    requires ValidWorld(w)
    ensures Run(w, s, [e, d]) == Step(w, Step(w, s, e), d)
  {
    assert [e, d][1..] == [d] && [d][1..] == [];
    assert Run(w, Step(w, s, e), [d]) == Run(w, Step(w, Step(w, s, e), d), []);
  }

  /** A single delivery dies, and any event that offers the item follows: it is logged
      twice exactly when the first got past its log write but not to its mark. */
  lemma RedeliveryRepeatsIff(w: World, s: State, m: Message, done: nat, d: Event)
    requires ValidWorld(w) && m.DataReceive? && Accepts(w, s, m.item, m.fromID)
    requires d.Deliver? && Crashes.OfferedBy(w, d.m, m.item)
    ensures Count(Run(w, s, [Crash(m, done), d]), Received(m.item)) ==
            Count(s, Received(m.item)) + if 0 < done <= MarkPosition(s) then 2 else 1
  {
    var e := Crash(m, done);
    TwoEvents(w, s, e, d);
    EntriesAfter(w, s, e, m.item);
    ReceivedAfter(w, s, e, m.item);
    EntriesAfter(w, Step(w, s, e), d, m.item);
  }

  /** Position of the clearing in a check of an own location. */
  function ClearPosition(s: State): nat {
    if OwnBit(s.flags) then 2 else 1
  }

  /** The check of an own placement dies, and the location is checked again: it is logged
      twice exactly when the first got past its log write but not to the clearing. */
  lemma RecheckRepeatsIff(w: World, s: State, p: Placement, done: nat)
    requires ValidWorld(w) && p in w.placements && p.owner == w.playerID && p.loc !in s.cleared
    ensures var m := LocationChecks([p.loc]);
            Count(Run(w, s, [Crash(m, done), Deliver(m)]), Checked(p.loc)) ==
            Count(s, Checked(p.loc)) + if 0 < done <= ClearPosition(s) then 2 else 1
  {
    var m := LocationChecks([p.loc]);
    var e, d := Crash(m, done), Deliver(m);
    var t := Step(w, s, e);
    TwoEvents(w, s, e, d);
    PlacedAtIsUnique(w, p);
    CheckEntriesAfter(w, s, e, p.loc);
    CheckEntriesAfter(w, t, d, p.loc);
    OneCheckLogs(w, s, e, p);
    ClearedByOneCheck(w, s, p, done);
    if p.loc !in t.cleared { OneCheckLogs(w, t, d, p); }
  }

  lemma OneCheckLogs(w: World, s: State, e: Event, p: Placement)
    requires ValidWorld(w) && p in w.placements && p.owner == w.playerID && p.loc !in s.cleared
    requires !e.Reconnect? && e.m == LocationChecks([p.loc])
    ensures LogsCheck(w, s, e, p.loc) <==> Past(e, 0)
  {
    PlacedAtIsUnique(w, p);
    var locs := [p.loc];
    assert locs[..0] == [] && FirstAt(locs, 0, p.loc);
    assert ChecksPlan(w, s, locs[..0]) == [];
  }

  lemma ClearedByOneCheck(w: World, s: State, p: Placement, done: nat)
    requires ValidWorld(w) && p in w.placements && p.owner == w.playerID && p.loc !in s.cleared
    ensures p.loc in Step(w, s, Crash(LocationChecks([p.loc]), done)).cleared <==> done > ClearPosition(s)
  {
    PlacedAtIsUnique(w, p);
    var plan := CheckPlan(w, s, p.loc);
    OwnCheckEffect(w, s, p.loc);
    assert ChecksPlan(w, s, [p.loc]) == plan by {
      assert [p.loc][1..] == [] && plan + [] == plan;
    }
    var c := ClearPosition(s);
    assert |plan| == c + 1 && plan[c] == Clear([p.loc]);
    if done > c {
      assert plan[..CutAt(plan, done)] == plan;
    } else {
      var part := plan[..CutAt(plan, done)];
      assert forall a :: a in part ==> !a.Clear?;
      NoClearKeeps(s, part);
    }
  }

  lemma {:induction false} NoClearKeeps(s: State, plan: seq<Action>)
    requires forall a :: a in plan ==> !a.Clear?
    ensures Execute(s, plan).state.cleared == s.cleared
    decreases |plan|
  {
    if plan != [] && Do(s, plan[0]).Some? {
      assert plan[0] in plan && forall a :: a in plan[1..] ==> a in plan;
      NoClearKeeps(Do(s, plan[0]).value, plan[1..]);
    }
  }
}
