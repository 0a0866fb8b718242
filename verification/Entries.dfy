/** How many log entries each item and each location gets, event by event, in every
    state; and with it what a crash can lose and what it can repeat. */
module Entries {
  import opened Collections
  import opened Options
  import opened Exchange
  import opened Handlers
  import opened WholeRuns
  import opened Blocking
  import opened Crashes

  function Count(s: State, o: Origin): nat {
    multiset(s.origins)[o]
  }

  /** The plan writes no entry of this origin. */
  ghost predicate Silent(plan: seq<Action>, o: Origin) {
    forall a :: a in plan && a.Log? ==> o !in a.why
  }

  lemma {:induction false} SilentKeepsCount(s: State, plan: seq<Action>, o: Origin)
    requires Silent(plan, o)
    ensures Count(Execute(s, plan).state, o) == Count(s, o)
    decreases |plan|
  {
    if plan != [] && Do(s, plan[0]).Some? {
      assert plan[0] in plan && forall a :: a in plan[1..] ==> a in plan;
      if plan[0].Log? { CountAppend(s.origins, plan[0].why, o); }
      SilentKeepsCount(Do(s, plan[0]).value, plan[1..], o);
    }
  }

  /** The event carries out more than n actions, unless one fails. */
  predicate Past(e: Event, n: nat) {
    e.Deliver? || (e.Crash? && e.done > n)
  }

  lemma StepTables(w: World, s: State, e: Event)
    requires ValidWorld(w) && !e.Reconnect?
    ensures var t, u := Step(w, s, e), Execute(s, Part(w, s, e)).state;
            t.origins == u.origins && t.received == u.received && t.cleared == u.cleared
  {
    var plan := Plan(w, s, e.m);
    assert plan[..|plan|] == plan;
  }

  lemma PastCut(plan: seq<Action>, e: Event, n: nat)
    requires n < |plan| && !e.Reconnect?
    ensures EventCut(plan, e) > n <==> Past(e, n)
  {
  }

  /* Receipts */

  /** Position of the mark in the single handler. */
  function MarkPosition(s: State): nat {
    if OthersBit(s.flags) then 3 else 2
  }

  lemma SingleCrashState(w: World, s: State, m: Message, done: nat)
    requires ValidWorld(w) && m.DataReceive? && Accepts(w, s, m.item, m.fromID)
    ensures var t := Step(w, s, Crash(m, done));
            && t.origins == (if done == 0 then s.origins else s.origins + [Received(m.item)])
            && t.received == (if done > MarkPosition(s) then s.received + {m.item} else s.received)
  {
    var plan := Plan(w, s, m);
    var part := plan[..CutAt(plan, done)];
    if done > 0 {
      var rest := part[1..];
      assert part == [plan[0]] + rest;
      ExecuteCons(s, plan[0], rest);
      AfterSingleLog(w, s, m, done);
      OnlyMarks(Do(s, plan[0]).value, rest, m.item);
    }
  }

  /** Behind its log write, the single handler sends messages and marks its item. */
  lemma AfterSingleLog(w: World, s: State, m: Message, done: nat)
    requires ValidWorld(w) && m.DataReceive? && Accepts(w, s, m.item, m.fromID) && done > 0
    ensures var rest := Plan(w, s, m)[..CutAt(Plan(w, s, m), done)][1..];
            && (forall a :: a in rest ==> a == Mark(m.item) || a.ToClient? || a.ToServer?)
            && (Mark(m.item) in rest <==> done > MarkPosition(s))
  {
    var plan := Plan(w, s, m);
    var rest := plan[..CutAt(plan, done)][1..];
    var p := MarkPosition(s);
    assert plan[p] == Mark(m.item) && |plan| == p + 2;
    assert forall i :: 1 <= i < |plan| && i != p ==> plan[i].ToClient? || plan[i].ToServer?;
    assert forall i :: 0 <= i < |rest| ==> rest[i] == plan[i + 1];
    if done > p { assert rest[p - 1] == Mark(m.item); }
  }

  /** Actions other than marks of one item and messages. */
  lemma {:induction false} OnlyMarks(s: State, plan: seq<Action>, item: Item)
    requires forall a :: a in plan ==> a == Mark(item) || a.ToClient? || a.ToServer?
    ensures var t := Execute(s, plan).state;
            t.origins == s.origins && t.received == if Mark(item) in plan then s.received + {item} else s.received
    decreases |plan|
  {
    if plan != [] {
      assert plan == [plan[0]] + plan[1..];
      assert plan[0] in plan;
      assert item in s.received ==> s.received + {item} == s.received;
      assert s.received + {item} + {item} == s.received + {item};
      if Do(s, plan[0]).Some? { OnlyMarks(Do(s, plan[0]).value, plan[1..], item); }
    }
  }

  lemma SingleTables(w: World, s: State, e: Event)
    requires ValidWorld(w) && !e.Reconnect? && e.m.DataReceive? && Accepts(w, s, e.m.item, e.m.fromID)
    ensures var t := Step(w, s, e);
            && t.origins == (if Past(e, 0) then s.origins + [Received(e.m.item)] else s.origins)
            && t.received == (if Past(e, MarkPosition(s)) then s.received + {e.m.item} else s.received)
  {
    if e.Crash? { SingleCrashState(w, s, e.m, e.done); } else { ReceiveEffect(w, s, e.m.item, e.m.from, e.m.fromID); }
  }

  lemma {:induction false} MarksPrefix(items: seq<Item>, k: nat)
    requires k <= |items|
    ensures Marks(items)[..k] == Marks(items[..k])
  {
  }

  lemma BatchCut(w: World, s: State, m: Message, done: nat)
    requires ValidWorld(w) && m.DatasReceive? && done <= |Accepted(s.received, m.items)|
    ensures var t := Step(w, s, Crash(m, done));
            && t.received == s.received + Elements(Accepted(s.received, m.items)[..done])
            && t.origins == s.origins
  {
    var accepted := Accepted(s.received, m.items);
    var plan := Plan(w, s, m);
    assert plan[..done] == Marks(accepted)[..done];
    MarksPrefix(accepted, done);
    var first := accepted[..done];
    assert forall x :: x in first ==> x in accepted;
    MarksEffect(s, first);
  }

  lemma {:induction false} OnlyMessages(s: State, plan: seq<Action>)
    requires forall a :: a in plan ==> a.ToClient? || a.ToServer?
    ensures var t := Execute(s, plan).state; t.origins == s.origins && t.received == s.received
    decreases |plan|
  {
    if plan != [] {
      assert plan[0] in plan && forall a :: a in plan[1..] ==> a in plan;
      OnlyMessages(Do(s, plan[0]).value, plan[1..]);
    }
  }

  lemma BatchPastLog(w: World, s: State, m: Message, done: nat)
    requires ValidWorld(w) && m.DatasReceive? && done > |Accepted(s.received, m.items)|
    ensures var t, accepted := Step(w, s, Crash(m, done)), Accepted(s.received, m.items);
            && t.received == s.received + Elements(accepted)
            && t.origins == s.origins + ReceivedOrigins(accepted)
  {
    var accepted := Accepted(s.received, m.items);
    var n := |accepted|;
    var plan := Plan(w, s, m);
    var part := plan[..CutAt(plan, done)];
    var log, rest := plan[n], part[n + 1..];
    assert log == Log(log.items, ReceivedOrigins(accepted));
    assert part == Marks(accepted) + ([log] + rest);
    assert forall i :: n < i < |plan| ==> plan[i].ToClient? || plan[i].ToServer?;
    assert forall i :: 0 <= i < |rest| ==> rest[i] == plan[n + 1 + i];
    MarksEffect(s, accepted);
    ExecuteConcat(s, Marks(accepted), [log] + rest);
    var t := Execute(s, Marks(accepted)).state;
    ExecuteCons(t, log, rest);
    OnlyMessages(Do(t, log).value, rest);
  }

  lemma BatchTables(w: World, s: State, e: Event)
    requires ValidWorld(w) && !e.Reconnect? && e.m.DatasReceive?
    ensures var t, accepted := Step(w, s, e), Accepted(s.received, e.m.items);
            var whole := Past(e, |accepted|);
            && t.origins == (if whole then s.origins + ReceivedOrigins(accepted) else s.origins)
            && t.received == s.received + Elements(if whole then accepted else accepted[..e.done])
  {
    if e.Deliver? {
      BatchEffect(w, s, e.m.items, e.m.from);
    } else if e.done > |Accepted(s.received, e.m.items)| {
      BatchPastLog(w, s, e.m, e.done);
    } else {
      BatchCut(w, s, e.m, e.done);
    }
  }

  /** The event writes an entry for the item: a single delivery that is accepted, or a
      batch that accepts it, gets past its log write. */
  predicate Logs(w: World, s: State, e: Event, item: Item) {
    !e.Reconnect? &&
    match e.m
    case DataReceive(it, _, fromID) => it == item && Accepts(w, s, item, fromID) && Past(e, 0)
    case DatasReceive(items, _) =>
      item in Accepted(s.received, items) && Past(e, |Accepted(s.received, items)|)
    case _ => false
  }

  /** The event marks the item as received. */
  predicate Stamps(w: World, s: State, e: Event, item: Item) {
    !e.Reconnect? &&
    match e.m
    case DataReceive(it, _, fromID) => it == item && Accepts(w, s, item, fromID) && Past(e, MarkPosition(s))
    case DatasReceive(items, _) =>
      var accepted := Accepted(s.received, items);
      exists i :: 0 <= i < |accepted| && accepted[i] == item && Past(e, i)
    case _ => false
  }

  lemma OtherEventsReceiveNothing(w: World, s: State, e: Event, item: Item)
    requires ValidWorld(w) && !e.Reconnect? && !e.m.DataReceive? && !e.m.DatasReceive?
    ensures Count(Step(w, s, e), Received(item)) == Count(s, Received(item))
    ensures item in Step(w, s, e).received <==> item in s.received
  {
    StepTables(w, s, e);
    LocalPlansTrackNothing(w, s, e.m, item);
    ExecuteTracks(s, Part(w, s, e), item);
    SilentKeepsCount(s, Part(w, s, e), Received(item));
  }

  /** In every state, an event adds one entry for an item if it logs it, else none. */
  lemma EntriesAfter(w: World, s: State, e: Event, item: Item)
    requires ValidWorld(w)
    ensures Count(Step(w, s, e), Received(item)) ==
            Count(s, Received(item)) + if Logs(w, s, e, item) then 1 else 0
  {
    if e.Reconnect? {
    } else if e.m.DataReceive? {
      if Accepts(w, s, e.m.item, e.m.fromID) {
        SingleTables(w, s, e);
        CountAppend(s.origins, [Received(e.m.item)], Received(item));
      }
    } else if e.m.DatasReceive? {
      var accepted := Accepted(s.received, e.m.items);
      BatchTables(w, s, e);
      CountAppend(s.origins, ReceivedOrigins(accepted), Received(item));
      OccursOnce(accepted, item);
    } else {
      OtherEventsReceiveNothing(w, s, e, item);
    }
  }

  /** In every state, an item is marked afterwards if it was before or the event does it. */
  lemma ReceivedAfter(w: World, s: State, e: Event, item: Item)
    requires ValidWorld(w)
    ensures item in Step(w, s, e).received <==> item in s.received || Stamps(w, s, e, item)
  {
    if e.Reconnect? {
    } else if e.m.DataReceive? {
      if Accepts(w, s, e.m.item, e.m.fromID) { SingleTables(w, s, e); }
    } else if e.m.DatasReceive? {
      BatchTables(w, s, e);
      BatchStamps(w, s, e, item);
    } else {
      OtherEventsReceiveNothing(w, s, e, item);
    }
  }

  lemma BatchStamps(w: World, s: State, e: Event, item: Item)
    requires !e.Reconnect? && e.m.DatasReceive?
    ensures var accepted := Accepted(s.received, e.m.items);
            Stamps(w, s, e, item) <==> item in if Past(e, |accepted|) then accepted else accepted[..e.done]
  {
    var accepted := Accepted(s.received, e.m.items);
    if !Past(e, |accepted|) {
      assert forall i :: 0 <= i < e.done ==> accepted[..e.done][i] == accepted[i];
      if Stamps(w, s, e, item) {
        var i :| 0 <= i < |accepted| && accepted[i] == item && Past(e, i);
        assert accepted[..e.done][i] == item;
      }
    }
  }

  /* Losing items: the batch handler marks before it logs */

  /** Marked as received, but not in the log. */
  predicate Lost(s: State, item: Item) {
    item in s.received && Received(item) !in s.origins
  }

  /** The process dies in the marking part of a batch, after marking this item, and no
      earlier delivery got it into the log. */
  predicate LosesItem(s: State, e: Event, item: Item) {
    && e.Crash? && e.m.DatasReceive? && Received(item) !in s.origins
    && var accepted := Accepted(s.received, e.m.items);
       e.done <= |accepted| && item in accepted[..e.done]
  }

  /** In every state, an item is lost afterwards exactly when it was lost before or the
      event is a crash that cuts a batch between marking and logging it. */
  lemma LostIff(w: World, s: State, e: Event, item: Item)
    requires ValidWorld(w)
    ensures Lost(Step(w, s, e), item) <==> Lost(s, item) || LosesItem(s, e, item)
  {
    EntriesAfter(w, s, e, item);
    ReceivedAfter(w, s, e, item);
    if !e.Reconnect? && e.m.DatasReceive? {
      BatchStamps(w, s, e, item);
      var accepted := Accepted(s.received, e.m.items);
      if !Past(e, |accepted|) { assert forall x :: x in accepted[..e.done] ==> x in accepted; }
    }
  }

  /** The run up to its i-th event. */
  lemma RunPrefix(w: World, s: State, events: seq<Event>, i: nat)
    requires ValidWorld(w) && events != [] && i < |events|
    ensures Run(w, Step(w, s, events[0]), events[1..][..i]) == Run(w, s, events[..i + 1])
  {
    assert events[..i + 1][1..] == events[1..][..i];
  }

  ghost predicate LosesAt(w: World, s: State, events: seq<Event>, item: Item, i: nat)
    requires ValidWorld(w) && i < |events|
  {
    LosesItem(Run(w, s, events[..i]), events[i], item)
  }

  /** Over whole runs: lost in the end exactly when lost at the start or by one of the
      events. Nothing brings a lost item back. */
  lemma {:induction false} RunLosesIff(w: World, s: State, events: seq<Event>, item: Item)
    requires ValidWorld(w)
    ensures Lost(Run(w, s, events), item) <==>
            Lost(s, item) || exists i :: 0 <= i < |events| && LosesAt(w, s, events, item, i)
    decreases |events|
  {
    if events != [] {
      var t, rest := Step(w, s, events[0]), events[1..];
      LostIff(w, s, events[0], item);
      RunLosesIff(w, t, rest, item);
      assert events[..0] == [];
      assert LosesAt(w, s, events, item, 0) <==> LosesItem(s, events[0], item);
      forall i | 0 <= i < |rest|
        ensures LosesAt(w, t, rest, item, i) <==> LosesAt(w, s, events, item, i + 1)
      {
        RunPrefix(w, s, events, i);
      }
      if exists i :: 0 <= i < |events| && LosesAt(w, s, events, item, i) {
        var i :| 0 <= i < |events| && LosesAt(w, s, events, item, i);
        if i > 0 { assert LosesAt(w, t, rest, item, i - 1) <==> LosesAt(w, s, events, item, i - 1 + 1); }
      }
    }
  }
}
