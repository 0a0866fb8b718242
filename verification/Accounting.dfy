/** What holds at every crash point: the process may die between any two actions of
    any handler and start again on the same savefile. */
module Accounting {
  import opened Collections
  import opened Options
  import opened Exchange

  /** The network item is the one its origin calls for. */
  ghost predicate Explains(w: World, e: NetworkItem, why: Origin)
    requires ValidWorld(w)
  {
    match why
    case Precollected => e.location == SERVER_LOCATION && e.player == SERVER_SLOT && e.flags == 0
    case Received(item) => exists from :: -1 <= from < |w.games| && e == ReceivedEntry(w, item.content, from)
    case Checked(loc) => !Foreign(w, loc) && CheckedEntry(w, loc) == Some(e)
    case Collected(name) => exists own :: own in w.ownItems && own.name == name && e == CollectedEntry(w, own)
  }

  /** A cleared location has had its consequence: a foreign item is waiting for an
      acknowledgement or has got one, any other item is in the log. */
  ghost predicate Accounted(w: World, s: State, loc: int) {
    if Foreign(w, loc) then
      var row := Row(PlacedAt(w, loc).value);
      row in s.unconfirmed || row in s.acknowledged
    else
      Checked(loc) in s.origins
  }

  ghost predicate ForeignRow(w: World, row: Outgoing) {
    exists p :: p in w.placements && p.owner != w.playerID && Row(p) == row
  }

  ghost predicate SitsInLog(log: seq<NetworkItem>, m: ClientMessage) {
    m.ReceivedItems? && m.items != [] ==>
      0 <= m.index <= m.index + |m.items| <= |log| && log[m.index..m.index + |m.items|] == m.items
  }

  ghost predicate Backed(s: State, m: ServerMessage) {
    match m
    case DataSend(row) => row in s.unconfirmed || row in s.acknowledged
    case ReceiveConfirm(item, _) => Received(item) in s.origins
    case _ => true
  }

  ghost predicate CrashInv(w: World, s: State)
    requires ValidWorld(w)
  {
    && |s.origins| == |s.log|
    && (forall i :: 0 <= i < |s.log| ==> Explains(w, s.log[i], s.origins[i]))
    && (forall l :: l in s.cleared ==> Accounted(w, s, l))
    && NoRepeats(s.unconfirmed)
    && (forall r :: r in s.unconfirmed ==> ForeignRow(w, r))
    && (forall m :: m in s.everToClient ==> SitsInLog(s.log, m))
    && (forall m :: m in s.everToServer ==> Backed(s, m))
  }

  /** Nothing recorded is ever taken back; only acknowledged rows leave a table. */
  ghost predicate Grows(s: State, t: State) {
    && s.log <= t.log
    && s.origins <= t.origins
    && s.cleared <= t.cleared
    && s.received <= t.received
    && s.acknowledged <= t.acknowledged
    && s.everToClient <= t.everToClient
    && s.everToServer <= t.everToServer
    && (forall r :: r in s.unconfirmed ==> r in t.unconfirmed || r in t.acknowledged)
  }

  lemma GrowsTransitive(s: State, t: State, u: State)
    requires Grows(s, t) && Grows(t, u)
    ensures Grows(s, u)
  {
  }

  /** What an action needs so that the invariant survives it. */
  ghost predicate SafeAction(w: World, s: State, a: Action)
    requires ValidWorld(w)
  {
    match a
    case Log(items, why) =>
      |items| == |why| && forall i :: 0 <= i < |items| ==> Explains(w, items[i], why[i])
    case Queue(rows) => forall r :: r in rows ==> ForeignRow(w, r)
    case Clear(locs) => forall l :: l in locs ==> Accounted(w, s, l)
    case ToClient(m) => SitsInLog(s.log, m)
    case ToServer(m) => Backed(s, m) && (m.DataSend? ==> m.row in s.unconfirmed)
    case _ => true
  }

  ghost predicate Safe(w: World, s: State, plan: seq<Action>)
    requires ValidWorld(w)
    decreases |plan|
  {
    plan == [] ||
    (SafeAction(w, s, plan[0]) &&
     (Do(s, plan[0]).Some? ==> Safe(w, Do(s, plan[0]).value, plan[1..])))
  }

  lemma LogStays(log: seq<NetworkItem>, more: seq<NetworkItem>, m: ClientMessage)
    requires SitsInLog(log, m)
    ensures SitsInLog(log + more, m)
  {
    if m.ReceivedItems? && m.items != [] {
      assert (log + more)[m.index..m.index + |m.items|] == log[m.index..m.index + |m.items|];
    }
  }

  lemma LogKeepsInv(w: World, s: State, items: seq<NetworkItem>, why: seq<Origin>)
    requires ValidWorld(w) && CrashInv(w, s) && SafeAction(w, s, Log(items, why))
    ensures CrashInv(w, Do(s, Log(items, why)).value)
  {
    var t := Do(s, Log(items, why)).value;
    forall m | m in t.everToClient
      ensures SitsInLog(t.log, m)
    {
      LogStays(s.log, items, m);
    }
    assert forall l :: l in t.cleared ==> Accounted(w, s, l) ==> Accounted(w, t, l);
  }

  lemma QueueKeepsInv(w: World, s: State, rows: seq<Outgoing>)
    requires ValidWorld(w) && CrashInv(w, s) && SafeAction(w, s, Queue(rows))
    requires Do(s, Queue(rows)).Some?
    ensures CrashInv(w, Do(s, Queue(rows)).value)
  {
    var t := Do(s, Queue(rows)).value;
    NoRepeatsConcat(s.unconfirmed, rows);
    assert forall l :: l in t.cleared ==> Accounted(w, s, l) ==> Accounted(w, t, l);
  }

  lemma SettleKeepsInv(w: World, s: State, row: Outgoing)
    requires ValidWorld(w) && CrashInv(w, s)
    ensures CrashInv(w, Do(s, Settle(row)).value)
  {
    var t := Do(s, Settle(row)).value;
    assert forall l :: l in s.cleared ==> Accounted(w, s, l) ==> Accounted(w, t, l);
    assert forall m :: m in s.everToServer ==> Backed(s, m) ==> Backed(t, m);
  }

  lemma ClearKeepsInv(w: World, s: State, locs: seq<int>)
    requires ValidWorld(w) && CrashInv(w, s) && SafeAction(w, s, Clear(locs)) && Do(s, Clear(locs)).Some?
    ensures CrashInv(w, Do(s, Clear(locs)).value)
  {
    var t := Do(s, Clear(locs)).value;
    assert forall l :: l in t.cleared ==> Accounted(w, s, l) ==> Accounted(w, t, l);
  }

  lemma ActionGrows(s: State, a: Action)
    requires Do(s, a).Some?
    ensures Grows(s, Do(s, a).value)
  {
  }

  lemma SendKeepsInv(w: World, s: State, m: ServerMessage)
    requires ValidWorld(w) && CrashInv(w, s) && Backed(s, m)
    ensures CrashInv(w, Do(s, ToServer(m)).value)
  {
    var t := Do(s, ToServer(m)).value;
    assert forall l :: l in t.cleared ==> Accounted(w, s, l) ==> Accounted(w, t, l);
  }

  /** One safe action keeps the invariant and takes nothing back. */
  lemma ActionKeepsInv(w: World, s: State, a: Action)
    requires ValidWorld(w) && CrashInv(w, s) && SafeAction(w, s, a) && Do(s, a).Some?
    ensures CrashInv(w, Do(s, a).value)
    ensures Grows(s, Do(s, a).value)
  {
    ActionGrows(s, a);
    match a
    case Log(items, why) => LogKeepsInv(w, s, items, why);
    case Queue(rows) => QueueKeepsInv(w, s, rows);
    case Clear(locs) => ClearKeepsInv(w, s, locs);
    case Settle(row) => SettleKeepsInv(w, s, row);
    case ToServer(m) => SendKeepsInv(w, s, m);
    case _ =>
  }

  lemma {:induction false} SafeExecution(w: World, s: State, plan: seq<Action>)
    requires ValidWorld(w) && CrashInv(w, s) && Safe(w, s, plan)
    ensures CrashInv(w, Execute(s, plan).state)
    ensures Grows(s, Execute(s, plan).state)
    decreases |plan|
  {
    if plan != [] && Do(s, plan[0]).Some? {
      var t := Do(s, plan[0]).value;
      ActionKeepsInv(w, s, plan[0]);
      SafeExecution(w, t, plan[1..]);
      GrowsTransitive(s, t, Execute(s, plan).state);
    }
  }

  lemma {:induction false} SafePrefix(w: World, s: State, plan: seq<Action>, k: nat)
    requires ValidWorld(w) && Safe(w, s, plan) && k <= |plan|
    ensures Safe(w, s, plan[..k])
    decreases |plan|
  {
    if k > 0 {
      assert plan[..k][1..] == plan[1..][..k - 1];
      if Do(s, plan[0]).Some? { SafePrefix(w, Do(s, plan[0]).value, plan[1..], k - 1); }
    }
  }

  lemma {:induction false} SafeConcat(w: World, s: State, a: seq<Action>, b: seq<Action>)
    requires ValidWorld(w) && Safe(w, s, a)
    requires Execute(s, a).ok ==> Safe(w, Execute(s, a).state, b)
    ensures Safe(w, s, a + b)
    decreases |a|
  {
    if a == [] {
      assert a + b == b;
    } else {
      assert (a + b)[1..] == a[1..] + b;
      if Do(s, a[0]).Some? { SafeConcat(w, Do(s, a[0]).value, a[1..], b); }
    }
  }

  lemma SafeCons(w: World, s: State, a: Action, rest: seq<Action>)
    requires ValidWorld(w) && SafeAction(w, s, a)
    requires Do(s, a).Some? ==> Safe(w, Do(s, a).value, rest)
    ensures Safe(w, s, [a] + rest)
  {
    assert ([a] + rest)[1..] == rest;
  }

  /* Every handler is safe */

  /** Sending rows that are in the table. */
  lemma {:induction false} SendsAreSafe(w: World, s: State, rows: seq<Outgoing>)
    requires ValidWorld(w)
    requires forall r :: r in rows ==> r in s.unconfirmed
    ensures Safe(w, s, Sends(rows))
    decreases |rows|
  {
    if rows != [] {
      var a := ToServer(DataSend(rows[0]));
      assert Sends(rows) == [a] + Sends(rows[1..]);
      SendsAreSafe(w, Do(s, a).value, rows[1..]);
      SafeCons(w, s, a, Sends(rows[1..]));
    }
  }

  lemma ReportIsSafe(w: World, s: State, before: seq<NetworkItem>, items: seq<NetworkItem>, index: int)
    requires ValidWorld(w) && s.log == before + items
    requires items != [] ==> index == |before|
    ensures Safe(w, s, [ToClient(ReceivedItems(index, items))])
  {
    assert items != [] ==> s.log[index..index + |items|] == items;
  }

  /** addSentItems, perhaps a report to the client, then the rest of a handler. */
  lemma LogAndReportAreSafe(w: World, s: State, items: seq<NetworkItem>, why: seq<Origin>,
                            report: seq<Action>, tail: seq<Action>)
    requires ValidWorld(w) && SafeAction(w, s, Log(items, why))
    requires report == [] || report == [ToClient(ReceivedItems(LogIndex(s, items), items))]
    requires forall t: State :: t.origins == s.origins + why ==> Safe(w, t, tail)
    ensures Safe(w, s, [Log(items, why)] + report + tail)
  {
    var t := Do(s, Log(items, why)).value;
    ReportIsSafe(w, t, s.log, items, LogIndex(s, items));
    ReportKeepsOrigins(t, report);
    assert Safe(w, Execute(t, report).state, tail);
    SafeConcat(w, t, report, tail);
    SafeCons(w, s, Log(items, why), report + tail);
    Regroup([Log(items, why)], report, tail);
  }

  lemma ReportKeepsOrigins(s: State, report: seq<Action>)
    requires |report| <= 1 && forall i :: 0 <= i < |report| ==> report[i].ToClient?
    ensures Execute(s, report).state.origins == s.origins
  {
    ExecuteOptional(s, report);
  }

  /** Confirming an item that is in the log, then marking it. */
  lemma ConfirmTailIsSafe(w: World, s: State, item: Item, from: string)
    requires ValidWorld(w) && Received(item) in s.origins
    ensures Safe(w, s, [ToServer(ReceiveConfirm(item, from)), Mark(item), ToServer(Save)])
  {
    var confirm, mark, save := ToServer(ReceiveConfirm(item, from)), Mark(item), ToServer(Save);
    SafeCons(w, Do(s, confirm).value, mark, [save]);
    SafeCons(w, s, confirm, [mark] + [save]);
    assert [confirm, mark, save] == [confirm] + ([mark] + [save]);
  }

  lemma ReceiveIsSafe(w: World, s: State, item: Item, from: string, fromID: int)
    requires ValidWorld(w)
    ensures Safe(w, s, ReceivePlan(w, s, item, from, fromID))
  {
    if Accepts(w, s, item, fromID) {
      var entry, why := ReceivedEntry(w, item.content, fromID), [Received(item)];
      var report := if OthersBit(s.flags) then [ToClient(ReceivedItems(|s.log|, [entry]))] else [];
      var tail := [ToServer(ReceiveConfirm(item, from)), Mark(item), ToServer(Save)];
      forall t: State | t.origins == s.origins + why
        ensures Safe(w, t, tail)
      {
        assert Received(item) in why;
        ConfirmTailIsSafe(w, t, item, from);
      }
      LogAndReportAreSafe(w, s, [entry], why, report, tail);
    }
  }

  lemma {:induction false} MarksAreSafe(w: World, s: State, items: seq<Item>)
    requires ValidWorld(w)
    ensures Safe(w, s, Marks(items))
    ensures var t := Execute(s, Marks(items)).state;
            t == s.(received := t.received)
    decreases |items|
  {
    if items != [] {
      assert Marks(items) == [Mark(items[0])] + Marks(items[1..]);
      ExecuteCons(s, Mark(items[0]), Marks(items[1..]));
      if Do(s, Mark(items[0])).Some? {
        MarksAreSafe(w, Do(s, Mark(items[0])).value, items[1..]);
      }
      SafeCons(w, s, Mark(items[0]), Marks(items[1..]));
    }
  }

  lemma BatchTailIsSafe(w: World, s: State, count: int, from: string)
    requires ValidWorld(w)
    ensures Safe(w, s, [ToServer(BatchConfirm(count, from)), ToServer(Save)])
  {
    var confirm := ToServer(BatchConfirm(count, from));
    SafeCons(w, s, confirm, [ToServer(Save)]);
    assert [confirm, ToServer(Save)] == [confirm] + [ToServer(Save)];
  }

  lemma BatchIsSafe(w: World, s: State, items: seq<Item>, from: string)
    requires ValidWorld(w)
    ensures Safe(w, s, BatchPlan(w, s, items, from))
  {
    var accepted := Accepted(s.received, items);
    var entries, why := BatchEntries(w, accepted, NicknameIndex(w.nicknames, from)), ReceivedOrigins(accepted);
    var report := if OthersBit(s.flags) then [ToClient(ReceivedItems(LogIndex(s, entries), entries))] else [];
    var tail := [ToServer(BatchConfirm(|items|, from)), ToServer(Save)];
    MarksAreSafe(w, s, accepted);
    var t := Execute(s, Marks(accepted)).state;
    forall u: State | u.origins == t.origins + why
      ensures Safe(w, u, tail)
    {
      BatchTailIsSafe(w, u, |items|, from);
    }
    LogAndReportAreSafe(w, t, entries, why, report, tail);
    SafeConcat(w, s, Marks(accepted), [Log(entries, why)] + report + tail);
  }

  lemma ConnectIsSafe(w: World, s: State, itemsHandling: Option<int>)
    requires ValidWorld(w)
    ensures Safe(w, s, ConnectPlan(s, itemsHandling))
  {
    var join := ToServer(Join);
    var s1 := Do(s, join).value;
    if itemsHandling.None? {
      SafeCons(w, s, join, [NilDereference]);
      assert [join, NilDereference] == [join] + [NilDereference];
    } else {
      var a, b, c := SetFlags(itemsHandling.value), ToClient(Connected(s.cleared)), ToClient(ReceivedItems(0, s.log));
      var s2 := Do(s1, a).value;
      var s3 := Do(s2, b).value;
      assert s3.log[0..|s.log|] == s.log;
      assert Safe(w, s3, [c]);
      SafeCons(w, s2, b, [c]);
      SafeCons(w, s1, a, [b] + [c]);
      SafeCons(w, s, join, [a] + ([b] + [c]));
      assert [join, a, b, c] == [join] + ([a] + ([b] + [c]));
    }
  }

  lemma CollectIsSafe(w: World, s: State)
    requires ValidWorld(w)
    ensures Safe(w, s, CollectPlan(w, s))
  {
    var plan := CollectPlan(w, s);
    var own := Collectable(w, s.received, w.ownItems);
    forall i | 0 <= i < |own|
      ensures Explains(w, plan[0].items[i], plan[0].why[i])
    {
      assert own[i] in w.ownItems;
    }
    LogAndReportAreSafe(w, s, plan[0].items, plan[0].why, [plan[1]], []);
    assert plan == [plan[0]] + [plan[1]] + [];
  }

  lemma ReleaseIsSafe(w: World, s: State)
    requires ValidWorld(w)
    ensures Safe(w, s, ReleasePlan(w, s))
  {
    var ps := Releasable(w, s.cleared, w.placements);
    var rows, locs := Rows(ps), Locs(ps);
    var s1 := Do(s, Queue(rows));
    if s1.Some? {
      forall l | l in locs
        ensures Accounted(w, s1.value, l)
      {
        var i :| 0 <= i < |ps| && ps[i].loc == l;
        assert ps[i] in w.placements;
        PlacedAtIsUnique(w, ps[i]);
        assert rows[i] in s1.value.unconfirmed;
      }
      var s2 := Do(s1.value, Clear(locs));
      if s2.Some? { SendsAreSafe(w, s2.value, rows); }
      SafeCons(w, s1.value, Clear(locs), Sends(rows));
    }
    forall r | r in rows
      ensures ForeignRow(w, r)
    {
      var i :| 0 <= i < |ps| && rows[i] == r;
      assert ps[i] in ps;
    }
    SafeCons(w, s, Queue(rows), [Clear(locs)] + Sends(rows));
    assert ReleasePlan(w, s) == [Queue(rows)] + ([Clear(locs)] + Sends(rows));
  }

  lemma ForeignCheckIsSafe(w: World, s: State, loc: int)
    requires ValidWorld(w) && Foreign(w, loc) && loc !in s.cleared
    ensures Safe(w, s, CheckPlan(w, s, loc))
  {
    var row := Row(PlacedAt(w, loc).value);
    var a, b, c := Queue([row]), ToServer(DataSend(row)), Clear([loc]);
    assert ForeignRow(w, row);
    if Do(s, a).Some? {
      var s1 := Do(s, a).value;
      assert row in s1.unconfirmed;
      var s2 := Do(s1, b).value;
      assert Accounted(w, s2, loc);
      assert Safe(w, s2, [c]);
      SafeCons(w, s1, b, [c]);
    }
    SafeCons(w, s, a, [b] + [c]);
    assert [a, b, c] == [a] + ([b] + [c]);
  }

  lemma OwnClearIsSafe(w: World, s: State, loc: int)
    requires ValidWorld(w) && !Foreign(w, loc) && Checked(loc) in s.origins
    ensures Safe(w, s, [Clear([loc])])
  {
    assert Accounted(w, s, loc);
  }

  lemma OwnCheckIsSafe(w: World, s: State, loc: int)
    requires ValidWorld(w) && !Foreign(w, loc)
    ensures Safe(w, s, CheckPlan(w, s, loc))
  {
    if CheckPlan(w, s, loc) != [] {
      var entry, why := CheckedEntry(w, loc).value, [Checked(loc)];
      var report := if OwnBit(s.flags) then [ToClient(ReceivedItems(|s.log|, [entry]))] else [];
      forall t: State | t.origins == s.origins + why
        ensures Safe(w, t, [Clear([loc])])
      {
        assert Checked(loc) in why;
        OwnClearIsSafe(w, t, loc);
      }
      LogAndReportAreSafe(w, s, [entry], why, report, [Clear([loc])]);
    }
  }

  lemma {:induction false} ChecksAreSafe(w: World, s: State, locs: seq<int>)
    requires ValidWorld(w)
    ensures Safe(w, s, ChecksPlan(w, s, locs))
    decreases |locs|
  {
    if locs != [] {
      if Foreign(w, locs[0]) && locs[0] !in s.cleared {
        ForeignCheckIsSafe(w, s, locs[0]);
      } else if !Foreign(w, locs[0]) {
        OwnCheckIsSafe(w, s, locs[0]);
      }
      var first := CheckPlan(w, s, locs[0]);
      var o := Execute(s, first);
      if o.ok {
        ChecksAreSafe(w, o.state, locs[1..]);
        SafeConcat(w, s, first, ChecksPlan(w, o.state, locs[1..]));
      }
    }
  }

  lemma PlanIsSafe(w: World, s: State, m: Message)
    requires ValidWorld(w)
    ensures Safe(w, s, Plan(w, s, m))
  {
    match m
    case JoinConfirm =>
      SendsAreSafe(w, s, s.unconfirmed);
      SafeConcat(w, s, Sends(s.unconfirmed), [Joined]);
    case DataReceive(item, from, fromID) => ReceiveIsSafe(w, s, item, from, fromID);
    case DatasReceive(items, from) => BatchIsSafe(w, s, items, from);
    case DataSendConfirm(row) =>
    case Connect(itemsHandling) => ConnectIsSafe(w, s, itemsHandling);
    case Collect => CollectIsSafe(w, s);
    case Release => ReleaseIsSafe(w, s);
    case Sync => assert s.log[0..|s.log|] == s.log;
    case LocationChecks(locs) => ChecksAreSafe(w, s, locs);
  }

  /* Runs with crashes anywhere */

  lemma StepKeepsInv(w: World, s: State, e: Event)
    requires ValidWorld(w) && CrashInv(w, s)
    ensures CrashInv(w, Step(w, s, e)) && Grows(s, Step(w, s, e))
  {
    if !e.Reconnect? {
      var plan := Plan(w, s, e.m);
      PlanIsSafe(w, s, e.m);
      var n := EventCut(plan, e);
      SafePrefix(w, s, plan, n);
      assert plan[..|plan|] == plan;
      SafeExecution(w, s, plan[..n]);
    }
  }

  lemma {:induction false} RunKeepsInv(w: World, s: State, events: seq<Event>)
    requires ValidWorld(w) && CrashInv(w, s)
    ensures CrashInv(w, Run(w, s, events)) && Grows(s, Run(w, s, events))
    decreases |events|
  {
    if events != [] {
      StepKeepsInv(w, s, events[0]);
      RunKeepsInv(w, Step(w, s, events[0]), events[1..]);
      GrowsTransitive(s, Step(w, s, events[0]), Run(w, s, events));
    }
  }

  /** The start of a run. */
  lemma InitialInv(w: World, precollected: seq<int>)
    requires ValidWorld(w)
    ensures CrashInv(w, Initial(precollected))
  {
  }

  /** Crash-safe accounting: whatever was delivered and wherever the process died,
      each cleared location holding another player's item has its row in the
      unconfirmed table or was acknowledged, and each other cleared location has the
      log entry that its item calls for. */
  lemma ClearedLocationsAreAccountedFor(w: World, precollected: seq<int>, events: seq<Event>, loc: int)
    requires ValidWorld(w)
    requires loc in Run(w, Initial(precollected), events).cleared
    ensures var s := Run(w, Initial(precollected), events);
            if Foreign(w, loc) then
              var row := Row(PlacedAt(w, loc).value);
              row in s.unconfirmed || row in s.acknowledged
            else
              CheckedEntry(w, loc).Some? && CheckedEntry(w, loc).value in s.log
  {
    InitialInv(w, precollected);
    RunKeepsInv(w, Initial(precollected), events);
    var s := Run(w, Initial(precollected), events);
    if !Foreign(w, loc) {
      var i :| 0 <= i < |s.origins| && s.origins[i] == Checked(loc);
      assert Explains(w, s.log[i], s.origins[i]);
    }
  }

  /** Confirm after log: at every crash point, a single-item confirmation that was
      ever sent has an entry for that item in the log, and the entry keeps its place
      for the rest of the run. */
  lemma ConfirmedItemsAreLogged(w: World, precollected: seq<int>, before: seq<Event>, after: seq<Event>,
                                item: Item, from: string)
    requires ValidWorld(w)
    requires ReceiveConfirm(item, from) in Run(w, Initial(precollected), before).everToServer
    ensures var s := Run(w, Initial(precollected), before);
            var t := Run(w, s, after);
            |s.origins| == |s.log| <= |t.log| == |t.origins| &&
            exists i :: 0 <= i < |s.log| && s.origins[i] == t.origins[i] == Received(item)
                        && t.log[i] == s.log[i]
                        && t.log[i].item == ItemID(w, item.content)
  {
    InitialInv(w, precollected);
    RunKeepsInv(w, Initial(precollected), before);
    var s := Run(w, Initial(precollected), before);
    RunKeepsInv(w, s, after);
    assert Backed(s, ReceiveConfirm(item, from));
    var i :| 0 <= i < |s.origins| && s.origins[i] == Received(item);
    assert Explains(w, s.log[i], s.origins[i]);
  }

  /** Every non-empty batch ever reported to a client sits in the log at the index it
      was reported with, at every later crash point. */
  lemma ReportedBatchesStay(w: World, precollected: seq<int>, before: seq<Event>, after: seq<Event>,
                            index: int, items: seq<NetworkItem>)
    requires ValidWorld(w) && items != []
    requires ReceivedItems(index, items) in Run(w, Initial(precollected), before).everToClient
    ensures var t := Run(w, Run(w, Initial(precollected), before), after);
            0 <= index && index + |items| <= |t.log| && t.log[index..index + |items|] == items
  {
    InitialInv(w, precollected);
    RunKeepsInv(w, Initial(precollected), before);
    var s := Run(w, Initial(precollected), before);
    RunKeepsInv(w, s, after);
    var t := Run(w, s, after);
    assert ReceivedItems(index, items) in t.everToClient;
    assert SitsInLog(t.log, ReceivedItems(index, items));
  }

  lemma {:induction false} SafeAt(w: World, s: State, plan: seq<Action>, k: nat)
    requires ValidWorld(w) && Safe(w, s, plan) && k < |plan| && Execute(s, plan[..k]).ok
    ensures SafeAction(w, Execute(s, plan[..k]).state, plan[k])
    decreases |plan|
  {
    if k > 0 {
      assert plan[..k][1..] == plan[1..][..k - 1];
      SafeAt(w, Do(s, plan[0]).value, plan[1..], k - 1);
    }
  }

  /** Whenever a handler hands an outgoing item to the server connection, its row is
      in the unconfirmed table at that moment. */
  lemma SentRowsAreStored(w: World, s: State, m: Message, k: nat, row: Outgoing)
    requires ValidWorld(w) && k < |Plan(w, s, m)| && Plan(w, s, m)[k] == ToServer(DataSend(row))
    requires Execute(s, Plan(w, s, m)[..k]).ok
    ensures row in Execute(s, Plan(w, s, m)[..k]).state.unconfirmed
  {
    PlanIsSafe(w, s, m);
    SafeAt(w, s, Plan(w, s, m), k);
  }
}
