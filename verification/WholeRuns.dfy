/** What holds in runs of whole handler steps, with any number of reconnects. A step
    that fails on a primary key, or on a Connect without items_handling, ends the
    process, which then starts again. */
module WholeRuns {
  import opened Collections
  import opened Options
  import opened Exchange
  import opened Handlers

  /* The invariant */

  function OwnCleared(w: World, cleared: set<int>): set<int> {
    set l | l in cleared && !Foreign(w, l)
  }

  ghost predicate ReceivedOnce(s: State) {
    forall item :: multiset(s.origins)[Received(item)] == if item in s.received then 1 else 0
  }

  ghost predicate CheckedOnce(w: World, s: State) {
    forall loc :: multiset(s.origins)[Checked(loc)] == if loc in s.cleared && !Foreign(w, loc) then 1 else 0
  }

  ghost predicate Conserved(w: World, s: State, precollected: nat) {
    |s.log| == precollected + |s.received| + |OwnCleared(w, s.cleared)| + s.collected
  }

  /** Every waiting row comes from a foreign location that has been cleared. */
  ghost predicate RowsFromCleared(w: World, s: State) {
    forall r :: r in s.unconfirmed ==>
      exists p :: p in w.placements && p.owner != w.playerID && p.loc in s.cleared && Row(p) == r
  }

  ghost predicate WholeInv(w: World, s: State, precollected: nat) {
    && ReceivedOnce(s)
    && CheckedOnce(w, s)
    && Conserved(w, s, precollected)
    && RowsFromCleared(w, s)
  }

  lemma InitialWhole(w: World, precollected: seq<int>)
    ensures WholeInv(w, Initial(precollected), |precollected|)
  {
    var s := Initial(precollected);
    assert forall o :: o in multiset(s.origins) ==> o == Precollected;
  }

  lemma RestartWhole(w: World, s: State, n: nat)
    requires WholeInv(w, s, n)
    ensures WholeInv(w, Restart(s), n)
  {
  }

  /* Logging */

  lemma {:induction false} CountCollectedNone(why: seq<Origin>)
    requires forall o :: o in why ==> !o.Collected?
    ensures CountCollected(why) == 0
  {
    if why != [] { CountCollectedNone(why[1..]); }
  }

  lemma {:induction false} CountCollectedAll(why: seq<Origin>)
    requires forall o :: o in why ==> o.Collected?
    ensures CountCollected(why) == |why|
  {
    if why != [] { CountCollectedAll(why[1..]); }
  }

  lemma CountAppend(a: seq<Origin>, b: seq<Origin>, o: Origin)
    ensures multiset(a + b)[o] == multiset(a)[o] + multiset(b)[o]
  {
  }

  lemma {:induction false} OccursOnce(items: seq<Item>, item: Item)
    requires NoRepeats(items)
    ensures multiset(ReceivedOrigins(items))[Received(item)] == if item in items then 1 else 0
  {
    if items != [] {
      var rest := ReceivedOrigins(items[1..]);
      assert ReceivedOrigins(items) == [Received(items[0])] + rest;
      CountAppend([Received(items[0])], rest, Received(item));
      OccursOnce(items[1..], item);
      assert items == [items[0]] + items[1..];
      assert item == items[0] ==> item !in items[1..];
    }
  }

  lemma {:induction false} SetSize(items: seq<Item>)
    requires NoRepeats(items)
    ensures |Elements(items)| == |items|
  {
    if items != [] {
      SetSize(items[1..]);
      assert items[0] !in items[1..];
      assert Elements(items) == {items[0]} + Elements(items[1..]);
    }
  }

  /* The handlers */

  /** Receiving a list of new items, one or many. */
  lemma ReceivingKeepsWhole(w: World, s: State, n: nat, items: seq<Item>, entries: seq<NetworkItem>,
                            tail: seq<ServerMessage>)
    requires WholeInv(w, s, n)
    requires NoRepeats(items) && |entries| == |items| && forall x :: x in items ==> x !in s.received
    ensures WholeInv(w, Send(LogAndTell(s, entries, ReceivedOrigins(items), OthersBit(s.flags)), tail)
                        .(received := s.received + Elements(items)), n)
  {
    var why := ReceivedOrigins(items);
    var u := LogAndTell(s, entries, why, OthersBit(s.flags));
    var t := Send(u, tail).(received := s.received + Elements(items));
    CountCollectedNone(why);
    SetSize(items);
    forall item
      ensures multiset(t.origins)[Received(item)] == if item in t.received then 1 else 0
    {
      OccursOnce(items, item);
      CountAppend(s.origins, why, Received(item));
    }
    forall loc
      ensures multiset(t.origins)[Checked(loc)] == multiset(s.origins)[Checked(loc)]
    {
      CountAppend(s.origins, why, Checked(loc));
      assert Checked(loc) !in why;
    }
  }

  lemma ReceiveKeepsWhole(w: World, s: State, n: nat, item: Item, from: string, fromID: int)
    requires WholeInv(w, s, n) && Accepts(w, s, item, fromID)
    ensures WholeInv(w, Execute(s, ReceivePlan(w, s, item, from, fromID)).state, n)
  {
    var entry := ReceivedEntry(w, item.content, fromID);
    assert ReceivedOrigins([item]) == [Received(item)];
    assert Elements([item]) == {item};
    ReceivingKeepsWhole(w, s, n, [item], [entry], [ReceiveConfirm(item, from), Save]);
    ReceiveEffect(w, s, item, from, fromID);
  }

  lemma BatchKeepsWhole(w: World, s: State, n: nat, items: seq<Item>, from: string)
    requires ValidWorld(w) && WholeInv(w, s, n)
    ensures WholeInv(w, Execute(s, BatchPlan(w, s, items, from)).state, n)
  {
    var accepted := Accepted(s.received, items);
    BatchEffect(w, s, items, from);
    ReceivingKeepsWhole(w, s, n, accepted, BatchEntries(w, accepted, NicknameIndex(w.nicknames, from)),
                        [BatchConfirm(|items|, from), Save]);
  }

  lemma JoinKeepsWhole(w: World, s: State, n: nat)
    requires WholeInv(w, s, n)
    ensures WholeInv(w, Execute(s, Sends(s.unconfirmed) + [Joined]).state, n)
  {
    JoinEffect(s);
  }

  lemma ConnectKeepsWhole(w: World, s: State, n: nat, flags: int)
    requires WholeInv(w, s, n)
    ensures WholeInv(w, Execute(s, ConnectPlan(s, Some(flags))).state, n)
  {
    ConnectEffect(s, flags);
  }

  lemma FullReportKeepsWhole(w: World, s: State, n: nat)
    requires WholeInv(w, s, n)
    ensures WholeInv(w, Execute(s, SyncPlan(s)).state, n)
  {
    SyncEffect(s);
  }

  lemma CollectKeepsWhole(w: World, s: State, n: nat)
    requires ValidWorld(w) && WholeInv(w, s, n)
    ensures WholeInv(w, Execute(s, CollectPlan(w, s)).state, n)
  {
    CollectEffect(w, s);
    var plan := CollectPlan(w, s);
    var why := plan[0].why;
    CountCollectedAll(why);
    forall o: Origin | !o.Collected?
      ensures multiset(s.origins + why)[o] == multiset(s.origins)[o]
    {
      CountAppend(s.origins, why, o);
      assert o !in why;
    }
  }

  lemma ConfirmKeepsWhole(w: World, s: State, n: nat, row: Outgoing)
    requires WholeInv(w, s, n)
    ensures WholeInv(w, Execute(s, [Settle(row)]).state, n)
  {
    ExecuteCons(s, Settle(row), []);
    assert [Settle(row)] + [] == [Settle(row)];
  }

  lemma OwnCheckKeepsWhole(w: World, s: State, n: nat, loc: int)
    requires WholeInv(w, s, n) && !Foreign(w, loc)
    ensures WholeInv(w, Execute(s, CheckPlan(w, s, loc)).state, n)
  {
    if CheckPlan(w, s, loc) != [] {
      OwnCheckEffect(w, s, loc);
      var t := Execute(s, CheckPlan(w, s, loc)).state;
      assert CountCollected([Checked(loc)]) == 0 by { CountCollectedNone([Checked(loc)]); }
      forall o: Origin
        ensures multiset(t.origins)[o] == multiset(s.origins)[o] + if o == Checked(loc) then 1 else 0
      {
        CountAppend(s.origins, [Checked(loc)], o);
      }
      assert OwnCleared(w, t.cleared) == OwnCleared(w, s.cleared) + {loc};
    }
  }

  lemma ForeignCheckKeepsWhole(w: World, s: State, n: nat, loc: int)
    requires ValidWorld(w) && WholeInv(w, s, n) && Foreign(w, loc)
    ensures WholeInv(w, Execute(s, CheckPlan(w, s, loc)).state, n)
  {
    if loc !in s.cleared {
      ForeignCheckEffect(w, s, loc);
      var t := Execute(s, CheckPlan(w, s, loc)).state;
      var p := PlacedAt(w, loc).value;
      assert OwnCleared(w, t.cleared) == OwnCleared(w, s.cleared);
      forall r | r in t.unconfirmed
        ensures exists q :: q in w.placements && q.owner != w.playerID && q.loc in t.cleared && Row(q) == r
      {
        if r !in s.unconfirmed { assert p in w.placements && Row(p) == r; }
      }
    }
  }

  lemma {:induction false} ChecksKeepWhole(w: World, s: State, n: nat, locs: seq<int>)
    requires ValidWorld(w) && WholeInv(w, s, n)
    ensures WholeInv(w, Execute(s, ChecksPlan(w, s, locs)).state, n)
    decreases |locs|
  {
    if locs != [] {
      ChecksUnfold(w, s, locs);
      if Foreign(w, locs[0]) {
        ForeignCheckKeepsWhole(w, s, n, locs[0]);
      } else {
        OwnCheckKeepsWhole(w, s, n, locs[0]);
      }
      var o := Execute(s, CheckPlan(w, s, locs[0]));
      if o.ok { ChecksKeepWhole(w, o.state, n, locs[1..]); }
    }
  }

  lemma ReleasedRows(w: World, s: State, ps: seq<Placement>)
    requires RowsFromCleared(w, s)
    requires forall p :: p in ps ==> p in w.placements && p.owner != w.playerID
    ensures RowsFromCleared(w, Released(s, ps))
  {
    var t := Released(s, ps);
    forall r | r in t.unconfirmed && r !in s.unconfirmed
      ensures exists q :: q in w.placements && q.owner != w.playerID && q.loc in t.cleared && Row(q) == r
    {
      var i :| 0 <= i < |ps| && Row(ps[i]) == r;
      assert Locs(ps)[i] == ps[i].loc;
    }
  }

  lemma ReleasedOwn(w: World, s: State, ps: seq<Placement>)
    requires ValidWorld(w)
    requires forall p :: p in ps ==> p in w.placements && p.owner != w.playerID
    ensures OwnCleared(w, Released(s, ps).cleared) == OwnCleared(w, s.cleared)
    ensures forall l :: !Foreign(w, l) ==> (l in Released(s, ps).cleared <==> l in s.cleared)
  {
    forall l | l in Locs(ps)
      ensures Foreign(w, l)
    {
      var i :| 0 <= i < |ps| && ps[i].loc == l;
      PlacedAtIsUnique(w, ps[i]);
    }
  }

  lemma ReleaseKeepsWhole(w: World, s: State, n: nat)
    requires ValidWorld(w) && WholeInv(w, s, n)
    ensures WholeInv(w, Execute(s, ReleasePlan(w, s)).state, n)
  {
    var ps := Releasable(w, s.cleared, w.placements);
    ReleaseEffect(w, s);
    if Do(s, Queue(Rows(ps))).Some? {
      ReleasedRows(w, s, ps);
      ReleasedOwn(w, s, ps);
      assert CheckedOnce(w, Released(s, ps));
    }
  }

  lemma PlanKeepsWhole(w: World, s: State, n: nat, m: Message)
    requires ValidWorld(w) && WholeInv(w, s, n)
    ensures WholeInv(w, Execute(s, Plan(w, s, m)).state, n)
  {
    match m
    case JoinConfirm => JoinKeepsWhole(w, s, n);
    case DataReceive(item, from, fromID) =>
      if Accepts(w, s, item, fromID) { ReceiveKeepsWhole(w, s, n, item, from, fromID); }
    case DatasReceive(items, from) => BatchKeepsWhole(w, s, n, items, from);
    case DataSendConfirm(row) => ConfirmKeepsWhole(w, s, n, row);
    case Connect(itemsHandling) =>
      if itemsHandling.Some? {
        ConnectKeepsWhole(w, s, n, itemsHandling.value);
      } else {
        ExecuteTwo(s, ToServer(Join), NilDereference);
      }
    case Collect => CollectKeepsWhole(w, s, n);
    case Release => ReleaseKeepsWhole(w, s, n);
    case Sync => FullReportKeepsWhole(w, s, n);
    case LocationChecks(locs) => ChecksKeepWhole(w, s, n, locs);
  }

  lemma StepKeepsWhole(w: World, s: State, n: nat, e: Event)
    requires ValidWorld(w) && WholeInv(w, s, n) && !e.Crash?
    ensures WholeInv(w, Step(w, s, e), n)
  {
    if e.Deliver? {
      PlanKeepsWhole(w, s, n, e.m);
      RestartWhole(w, Execute(s, Plan(w, s, e.m)).state, n);
    } else {
      RestartWhole(w, s, n);
    }
  }

  lemma {:induction false} RunKeepsWhole(w: World, s: State, n: nat, events: seq<Event>)
    requires ValidWorld(w) && WholeInv(w, s, n) && WholeSteps(events)
    ensures WholeInv(w, Run(w, s, events), n)
    decreases |events|
  {
    if events != [] {
      StepKeepsWhole(w, s, n, events[0]);
      RunKeepsWhole(w, Step(w, s, events[0]), n, events[1..]);
    }
  }

  /* The theorems */

  /** Exactly-once receipt: an item accepted through single or batch delivery has
      exactly one log entry, any other item has none. */
  lemma ExactlyOnceReceipt(w: World, precollected: seq<int>, events: seq<Event>, item: Item)
    requires ValidWorld(w) && WholeSteps(events)
    ensures var s := Run(w, Initial(precollected), events);
            multiset(s.origins)[Received(item)] == if item in s.received then 1 else 0
  {
    InitialWhole(w, precollected);
    RunKeepsWhole(w, Initial(precollected), |precollected|, events);
  }

  /** Item conservation. */
  lemma ItemConservation(w: World, precollected: seq<int>, events: seq<Event>)
    requires ValidWorld(w) && WholeSteps(events)
    ensures var s := Run(w, Initial(precollected), events);
            |s.log| == |precollected| + |s.received| + |OwnCleared(w, s.cleared)| + s.collected
  {
    InitialWhole(w, precollected);
    RunKeepsWhole(w, Initial(precollected), |precollected|, events);
  }
}
