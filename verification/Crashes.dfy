/** How the order of writes inside each handler decides what a crash can spoil. */
module Crashes {
  import opened Collections
  import opened Options
  import opened Exchange
  import opened Handlers
  import opened WholeRuns
  import opened Sessions

  /* What a plan can do to the received table and the log */

  ghost predicate Marking(plan: seq<Action>, item: Item) {
    Mark(item) in plan
  }

  ghost predicate Logging(plan: seq<Action>, item: Item) {
    exists a :: a in plan && a.Log? && Received(item) in a.why
  }

  lemma {:induction false} ExecuteTracks(s: State, plan: seq<Action>, item: Item)
    ensures var t := Execute(s, plan).state;
            && (!Marking(plan, item) ==> (item in t.received <==> item in s.received))
            && (!Logging(plan, item) ==> (Received(item) in t.origins <==> Received(item) in s.origins))
            && (item in s.received ==> item in t.received)
            && (Received(item) in s.origins ==> Received(item) in t.origins)
    decreases |plan|
  {
    if plan != [] && Do(s, plan[0]).Some? {
      assert plan[0] in plan && forall a :: a in plan[1..] ==> a in plan;
      ExecuteTracks(Do(s, plan[0]).value, plan[1..], item);
    }
  }

  lemma LocalPlansTrackNothing(w: World, s: State, m: Message, item: Item)
    requires ValidWorld(w) && !m.DataReceive? && !m.DatasReceive?
    ensures !Marking(Plan(w, s, m), item) && !Logging(Plan(w, s, m), item)
  {
    if m.LocationChecks? { ChecksTrackNothing(w, s, m.locations, item); }
  }

  lemma CheckTracksNothing(w: World, s: State, loc: int, item: Item)
    ensures !Marking(CheckPlan(w, s, loc), item) && !Logging(CheckPlan(w, s, loc), item)
  {
    assert forall a :: a in CheckPlan(w, s, loc) && a.Log? ==> a.why == [Checked(loc)];
  }

  lemma {:induction false} ChecksTrackNothing(w: World, s: State, locs: seq<int>, item: Item)
    ensures !Marking(ChecksPlan(w, s, locs), item) && !Logging(ChecksPlan(w, s, locs), item)
    decreases |locs|
  {
    if locs != [] {
      var first := CheckPlan(w, s, locs[0]);
      CheckTracksNothing(w, s, locs[0], item);
      var o := Execute(s, first);
      if o.ok { ChecksTrackNothing(w, o.state, locs[1..], item); }
    }
  }

  /* Confirm after log */

  ghost predicate Confirms(a: Action) {
    a.ToServer? && a.sm.ReceiveConfirm?
  }

  lemma {:induction false} ChecksConfirmNothing(w: World, s: State, locs: seq<int>)
    ensures forall a :: a in ChecksPlan(w, s, locs) ==> !Confirms(a)
    decreases |locs|
  {
    if locs != [] {
      var first := CheckPlan(w, s, locs[0]);
      assert forall a :: a in first ==> !Confirms(a);
      var o := Execute(s, first);
      if o.ok { ChecksConfirmNothing(w, o.state, locs[1..]); }
    }
  }

  lemma OnlySingleReceiptsConfirm(w: World, s: State, m: Message)
    requires ValidWorld(w) && !m.DataReceive?
    ensures forall a :: a in Plan(w, s, m) ==> !Confirms(a)
  {
    if m.LocationChecks? { ChecksConfirmNothing(w, s, m.locations); }
  }

  lemma SingleBeforeConfirm(w: World, s: State, item: Item, from: string, fromID: int, k: nat)
    requires var plan := ReceivePlan(w, s, item, from, fromID); k < |plan| && Confirms(plan[k])
    ensures var plan := ReceivePlan(w, s, item, from, fromID);
            && plan[k] == ToServer(ReceiveConfirm(item, from)) && Accepts(w, s, item, fromID)
            && var o := Execute(s, plan[..k]);
               o.ok && o.state.received == s.received && o.state.origins == s.origins + [Received(item)]
               && o.state.log == s.log + [ReceivedEntry(w, item.content, fromID)]
  {
    var plan := ReceivePlan(w, s, item, from, fromID);
    var report := plan[1..k];
    assert k == if OthersBit(s.flags) then 2 else 1;
    assert plan[..k] == [plan[0]] + report;
    ExecuteCons(s, plan[0], report);
    ExecuteOptional(Do(s, plan[0]).value, report);
  }

  /** When a handler hands over a single-item confirmation, that same delivery has
      just committed the item's log entry, and has not marked the item yet. */
  lemma ConfirmFollowsLog(w: World, s: State, m: Message, k: nat, item: Item, from: string)
    requires ValidWorld(w) && k < |Plan(w, s, m)|
    requires Plan(w, s, m)[k] == ToServer(ReceiveConfirm(item, from))
    ensures m.DataReceive? && m.item == item && m.from == from && Accepts(w, s, item, m.fromID)
    ensures var o := Execute(s, Plan(w, s, m)[..k]);
            && o.ok && o.state.received == s.received
            && o.state.origins == s.origins + [Received(item)]
            && o.state.log == s.log + [ReceivedEntry(w, item.content, m.fromID)]
  {
    var plan := Plan(w, s, m);
    assert plan[k] in plan && Confirms(plan[k]);
    if m.DataReceive? {
      SingleBeforeConfirm(w, s, m.item, m.from, m.fromID, k);
    } else {
      OnlySingleReceiptsConfirm(w, s, m);
    }
  }

  /* Which items get into the received table */

  predicate OfferedBy(w: World, m: Message, item: Item) {
    item.tag == LABEL &&
    match m
    case DataReceive(it, _, fromID) => it == item && 0 <= fromID < |w.games|
    case DatasReceive(items, _) => item in items
    case _ => false
  }

  lemma DeliveryReceives(w: World, s: State, m: Message, item: Item)
    requires ValidWorld(w)
    ensures item in Step(w, s, Deliver(m)).received <==> item in s.received || OfferedBy(w, m, item)
  {
    match m
    case DataReceive(it, from, fromID) =>
      if Accepts(w, s, it, fromID) { ReceiveEffect(w, s, it, from, fromID); }
    case DatasReceive(items, from) => BatchEffect(w, s, items, from);
    case _ =>
      LocalPlansTrackNothing(w, s, m, item);
      ExecuteTracks(s, Plan(w, s, m), item);
  }

  /** In runs of whole steps the items with a log entry are exactly the offered ones,
      each with exactly one entry, however often and in whatever form it was offered. */
  lemma {:induction false} OfferedItemsAreReceived(w: World, s: State, events: seq<Event>, item: Item)
    requires ValidWorld(w) && WholeSteps(events)
    ensures item in Run(w, s, events).received <==>
            item in s.received || exists i :: 0 <= i < |events| && events[i].Deliver? && OfferedBy(w, events[i].m, item)
    decreases |events|
  {
    if events != [] {
      var e := events[0];
      if e.Deliver? { DeliveryReceives(w, s, e.m, item); }
      var t := Step(w, s, e);
      OfferedItemsAreReceived(w, t, events[1..], item);
      if exists i :: 0 <= i < |events| && events[i].Deliver? && OfferedBy(w, events[i].m, item) {
        var i :| 0 <= i < |events| && events[i].Deliver? && OfferedBy(w, events[i].m, item);
        assert i == 0 || events[1..][i - 1] == events[i];
      }
    }
  }

  lemma OneEntryPerOfferedItem(w: World, precollected: seq<int>, events: seq<Event>, item: Item)
    requires ValidWorld(w) && WholeSteps(events)
    ensures multiset(Run(w, Initial(precollected), events).origins)[Received(item)] ==
            if exists i :: 0 <= i < |events| && events[i].Deliver? && OfferedBy(w, events[i].m, item) then 1 else 0
  {
    ExactlyOnceReceipt(w, precollected, events, item);
    OfferedItemsAreReceived(w, Initial(precollected), events, item);
  }

  /* The client mirror needs both bits */

  lemma ConnectThen(w: World, flags: int, m: Message)
    requires ValidWorld(w)
    ensures var t := Step(w, Initial([]), Deliver(Connect(Some(flags))));
            && t.flags == flags && t.log == [] && t.cleared == {} && t.received == {}
            && Fold(t.toClient) == InSync([])
            && Run(w, Initial([]), [Deliver(Connect(Some(flags))), Deliver(m)]) == Step(w, t, Deliver(m))
  {
    var s := Initial([]);
    var c, d := Deliver(Connect(Some(flags))), Deliver(m);
    ConnectEffect(s, flags);
    var t := Step(w, s, c);
    FoldOne([Connected(s.cleared)], ReceivedItems(0, s.log));
    assert t.toClient == [Connected(s.cleared)] + [ReceivedItems(0, s.log)];
    assert [c, d][1..] == [d] && [d][1..] == [];
    assert Run(w, t, [d]) == Run(w, Step(w, t, d), []);
    assert Run(w, s, [c, d]) == Run(w, t, [d]);
  }

  ghost predicate MirrorBreaks(w: World, flags: int, m: Message) {
    && ValidWorld(w)
    && var s := Run(w, Initial([]), [Deliver(Connect(Some(flags))), Deliver(m)]);
       s.flags == flags && Fold(s.toClient) != InSync(s.log)
  }

  lemma ReceiveBreaksMirror(w: World, flags: int, m: Message)
    requires ValidWorld(w) && !OthersBit(flags)
    requires m.DataReceive? && m.item.tag == LABEL && 0 <= m.fromID < |w.games|
    ensures MirrorBreaks(w, flags, m)
  {
    var t := Step(w, Initial([]), Deliver(Connect(Some(flags))));
    ConnectThen(w, flags, m);
    ReceiveEffect(w, t, m.item, m.from, m.fromID);
  }

  lemma CheckBreaksMirror(w: World, flags: int, p: Placement)
    requires ValidWorld(w) && !OwnBit(flags) && p in w.placements && p.owner == w.playerID
    ensures MirrorBreaks(w, flags, LocationChecks([p.loc]))
  {
    var t := Step(w, Initial([]), Deliver(Connect(Some(flags))));
    ConnectThen(w, flags, LocationChecks([p.loc]));
    PlacedAtIsUnique(w, p);
    OwnCheckEffect(w, t, p.loc);
    ChecksUnfold(w, t, [p.loc]);
    assert [p.loc][1..] == [];
  }

  /** For every flags value that misses a bit there is a seed and a message after
      which a freshly connected client does not hold the log. */
  lemma MirrorNeedsBothBits(flags: int)
    requires !(OwnBit(flags) && OthersBit(flags))
    ensures exists w, m :: MirrorBreaks(w, flags, m)
  {
    var p := Placement(7, "x", 0);
    var w := World(0, ["a"], ["g"], map[], map[], map[], [p], []);
    if OwnBit(flags) {
      ReceiveBreaksMirror(w, flags, DataReceive(Item(LABEL, "y"), "a", 0));
    } else {
      CheckBreaksMirror(w, flags, p);
    }
  }
}
