/** What holds on every pair of connections, in runs with crashes and restarts
    anywhere: what the client makes of its messages, and what was sent again. */
module Sessions {
  import opened Options
  import opened Exchange
  import opened Handlers

  /* The client's view */

  /** What a client makes of the ReceivedItems messages: index 0 replaces its list,
      an empty batch is ignored, a batch at the end of the list extends it. */
  datatype Mirror = InSync(items: seq<NetworkItem>) | OutOfSync

  function See(m: Mirror, msg: ClientMessage): Mirror {
    match msg
    case Connected(_) => m
    case ReceivedItems(index, items) =>
      if index == 0 then InSync(items)
      else if items == [] then m
      else if m.InSync? && index == |m.items| then InSync(m.items + items)
      else OutOfSync
  }

  function Fold(msgs: seq<ClientMessage>): Mirror {
    if msgs == [] then InSync([]) else See(Fold(msgs[..|msgs| - 1]), msgs[|msgs| - 1])
  }

  lemma FoldOne(msgs: seq<ClientMessage>, m: ClientMessage)
    ensures Fold(msgs + [m]) == See(Fold(msgs), m)
  {
    assert (msgs + [m])[..|msgs|] == msgs;
  }

  /* The invariant */

  ghost predicate BothBits(s: State) {
    OwnBit(s.flags) && OthersBit(s.flags)
  }

  ghost predicate MirrorsLog(s: State) {
    BothBits(s) ==> Fold(s.toClient) == InSync(s.log)
  }

  ghost predicate Resent(s: State) {
    s.joined ==> forall r :: r in s.unconfirmed ==> DataSend(r) in s.toServer
  }

  ghost predicate SessionInv(s: State) {
    MirrorsLog(s) && Resent(s)
  }

  /** New connections have nothing to keep yet. */
  lemma RestartSession(s: State)
    ensures SessionInv(Restart(s))
  {
  }

  lemma MirrorAfterLog(s: State, items: seq<NetworkItem>, why: seq<Origin>, tell: bool)
    requires MirrorsLog(s) && (BothBits(s) ==> tell)
    ensures MirrorsLog(LogAndTell(s, items, why, tell))
  {
    if BothBits(s) {
      FoldOne(s.toClient, ReceivedItems(LogIndex(s, items), items));
      if items == [] { assert s.log + items == s.log; }
      if s.log == [] { assert s.log + items == items; }
    }
  }

  /** Logging and reporting leaves what was sent to the server. */
  lemma LogKeepsSession(s: State, items: seq<NetworkItem>, why: seq<Origin>, tell: bool)
    requires SessionInv(s) && (BothBits(s) ==> tell)
    ensures SessionInv(LogAndTell(s, items, why, tell))
  {
    MirrorAfterLog(s, items, why, tell);
  }

  lemma SendKeepsSession(s: State, msgs: seq<ServerMessage>)
    requires SessionInv(s)
    ensures SessionInv(Send(s, msgs))
  {
  }

  /** Rows that are stored and sent together. */
  lemma QueueKeepsSession(s: State, rows: seq<Outgoing>, cleared: set<int>)
    requires SessionInv(s)
    ensures SessionInv(Send(s.(unconfirmed := s.unconfirmed + rows, cleared := cleared), DataSends(rows)))
  {
    forall r | r in rows
      ensures DataSend(r) in DataSends(rows)
    {
      var i :| 0 <= i < |rows| && rows[i] == r;
      assert DataSends(rows)[i] == DataSend(r);
    }
  }

  lemma JoinKeepsSession(s: State)
    requires SessionInv(s)
    ensures SessionInv(Send(s, DataSends(s.unconfirmed)).(joined := true))
  {
    forall r | r in s.unconfirmed
      ensures DataSend(r) in DataSends(s.unconfirmed)
    {
      var i :| 0 <= i < |s.unconfirmed| && s.unconfirmed[i] == r;
      assert DataSends(s.unconfirmed)[i] == DataSend(r);
    }
  }

  /** The full log, behind whatever the client was told before. */
  lemma FullReportKeepsSession(s: State, before: seq<ClientMessage>, flags: int)
    requires SessionInv(s)
    ensures SessionInv(Tell(s, before + [ReceivedItems(0, s.log)]).(flags := flags))
  {
    var report := ReceivedItems(0, s.log);
    FoldOne(s.toClient + before, report);
    assert s.toClient + (before + [report]) == s.toClient + before + [report];
  }

  /* The handlers */

  lemma CheckKeepsSession(w: World, s: State, loc: int)
    requires SessionInv(s) && Execute(s, CheckPlan(w, s, loc)).ok
    ensures SessionInv(Execute(s, CheckPlan(w, s, loc)).state)
  {
    if Foreign(w, loc) && loc !in s.cleared {
      ForeignCheckEffect(w, s, loc);
      var row := Row(PlacedAt(w, loc).value);
      QueueKeepsSession(s, [row], s.cleared + {loc});
      assert DataSends([row]) == [DataSend(row)];
    } else if CheckPlan(w, s, loc) != [] {
      OwnCheckEffect(w, s, loc);
      LogKeepsSession(s, [CheckedEntry(w, loc).value], [Checked(loc)], OwnBit(s.flags));
    }
  }

  lemma {:induction false} ChecksKeepSession(w: World, s: State, locs: seq<int>)
    requires SessionInv(s) && Execute(s, ChecksPlan(w, s, locs)).ok
    ensures SessionInv(Execute(s, ChecksPlan(w, s, locs)).state)
    decreases |locs|
  {
    if locs != [] {
      ChecksUnfold(w, s, locs);
      CheckKeepsSession(w, s, locs[0]);
      ChecksKeepSession(w, Execute(s, CheckPlan(w, s, locs[0])).state, locs[1..]);
    }
  }

  lemma ReceiveKeepsSession(w: World, s: State, item: Item, from: string, fromID: int)
    requires SessionInv(s)
    ensures SessionInv(Execute(s, ReceivePlan(w, s, item, from, fromID)).state)
  {
    if Accepts(w, s, item, fromID) {
      var entry := ReceivedEntry(w, item.content, fromID);
      ReceiveEffect(w, s, item, from, fromID);
      LogKeepsSession(s, [entry], [Received(item)], OthersBit(s.flags));
      var t := LogAndTell(s, [entry], [Received(item)], OthersBit(s.flags));
      SendKeepsSession(t, [ReceiveConfirm(item, from), Save]);
    }
  }

  lemma BatchKeepsSession(w: World, s: State, items: seq<Item>, from: string)
    requires ValidWorld(w) && SessionInv(s)
    ensures SessionInv(Execute(s, BatchPlan(w, s, items, from)).state)
  {
    var accepted := Accepted(s.received, items);
    var entries, why := BatchEntries(w, accepted, NicknameIndex(w.nicknames, from)), ReceivedOrigins(accepted);
    BatchEffect(w, s, items, from);
    LogKeepsSession(s, entries, why, OthersBit(s.flags));
    SendKeepsSession(LogAndTell(s, entries, why, OthersBit(s.flags)), [BatchConfirm(|items|, from), Save]);
  }

  lemma ConnectKeepsSession(s: State, flags: int)
    requires SessionInv(s)
    ensures SessionInv(Execute(s, ConnectPlan(s, Some(flags))).state)
  {
    ConnectEffect(s, flags);
    SendKeepsSession(s, [Join]);
    FullReportKeepsSession(Send(s, [Join]), [Connected(s.cleared)], flags);
    assert [Connected(s.cleared)] + [ReceivedItems(0, s.log)] == [Connected(s.cleared), ReceivedItems(0, s.log)];
  }

  lemma SyncKeepsSession(s: State)
    requires SessionInv(s)
    ensures SessionInv(Execute(s, SyncPlan(s)).state)
  {
    SyncEffect(s);
    FullReportKeepsSession(s, [], s.flags);
    assert [] + [ReceivedItems(0, s.log)] == [ReceivedItems(0, s.log)];
  }

  /** A handler that gets through keeps the session in order. */
  lemma PlanKeepsSession(w: World, s: State, m: Message)
    requires ValidWorld(w) && SessionInv(s) && Execute(s, Plan(w, s, m)).ok
    ensures SessionInv(Execute(s, Plan(w, s, m)).state)
  {
    match m
    case JoinConfirm =>
      JoinEffect(s);
      JoinKeepsSession(s);
    case DataReceive(item, from, fromID) => ReceiveKeepsSession(w, s, item, from, fromID);
    case DatasReceive(items, from) => BatchKeepsSession(w, s, items, from);
    case DataSendConfirm(row) =>
      ExecuteCons(s, Settle(row), []);
      assert [Settle(row)] + [] == [Settle(row)];
    case Connect(itemsHandling) =>
      if itemsHandling.None? { ExecuteTwo(s, ToServer(Join), NilDereference); }
      else { ConnectKeepsSession(s, itemsHandling.value); }
    case Collect =>
      var plan := CollectPlan(w, s);
      CollectEffect(w, s);
      LogKeepsSession(s, plan[0].items, plan[0].why, true);
    case Release =>
      var ps := Releasable(w, s.cleared, w.placements);
      ReleaseEffect(w, s);
      QueueKeepsSession(s, Rows(ps), Released(s, ps).cleared);
    case Sync => SyncKeepsSession(s);
    case LocationChecks(locs) => ChecksKeepSession(w, s, locs);
  }

  lemma StepKeepsSession(w: World, s: State, e: Event)
    requires ValidWorld(w) && SessionInv(s)
    ensures SessionInv(Step(w, s, e))
  {
    match e
    case Reconnect => RestartSession(s);
    case Crash(m, done) =>
      var plan := Plan(w, s, m);
      RestartSession(Execute(s, plan[..CutAt(plan, done)]).state);
    case Deliver(m) =>
      var o := Execute(s, Plan(w, s, m));
      if o.ok { PlanKeepsSession(w, s, m); } else { RestartSession(o.state); }
  }

  lemma {:induction false} RunKeepsSession(w: World, s: State, events: seq<Event>)
    requires ValidWorld(w) && SessionInv(s)
    ensures SessionInv(Run(w, s, events))
    decreases |events|
  {
    if events != [] {
      StepKeepsSession(w, s, events[0]);
      RunKeepsSession(w, Step(w, s, events[0]), events[1..]);
    }
  }

  /* The theorems */

  /** Client mirror: after every run, whatever was delivered and wherever the process
      died on the way, a client connected with both bits holds exactly the log. */
  lemma ClientMirror(w: World, precollected: seq<int>, events: seq<Event>)
    requires ValidWorld(w)
    requires BothBits(Run(w, Initial(precollected), events))
    ensures var s := Run(w, Initial(precollected), events);
            Fold(s.toClient) == InSync(s.log)
  {
    RunKeepsSession(w, Initial(precollected), events);
  }

  /** Resend: once a JoinConfirm was handled on a connection, every waiting item has
      been sent on that same connection, crashes and restarts before it included. */
  lemma UnconfirmedItemsAreResent(w: World, precollected: seq<int>, events: seq<Event>, row: Outgoing)
    requires ValidWorld(w)
    requires var s := Run(w, Initial(precollected), events); s.joined && row in s.unconfirmed
    ensures DataSend(row) in Run(w, Initial(precollected), events).toServer
  {
    RunKeepsSession(w, Initial(precollected), events);
  }
}
