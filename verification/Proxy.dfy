/** The message loop of playMWWithConn (cmd/isthmus/play.go) with the savefile it
    works on. Each handler is proved to carry out exactly the plan of its message: the
    same writes and sends, one after the other in the same order. */
module ProxySession {
  import opened Collections
  import opened Options
  import opened Exchange
  import opened Handlers
  import opened SavefileTables

  class Proxy {
    const world: World
    const db: Savefile
    var itemHandling: int
    // What was handed to each connection, with the history the theorems speak of.
    ghost var joined: bool
    ghost var toClient: seq<ClientMessage>
    ghost var toServer: seq<ServerMessage>
    ghost var acknowledged: set<Outgoing>
    ghost var everToClient: seq<ClientMessage>
    ghost var everToServer: seq<ServerMessage>
    ghost var collected: nat
    // Every committed write and every message handed over, in order.
    ghost var trace: seq<Action>

    ghost predicate Valid()
      reads this, db
    {
      ValidWorld(world) && db.Valid()
    }

    ghost function Abs(): State
      requires Valid()
      reads this, db
    {
      State(db.cleared, db.unconfirmed, db.received, db.SentLog(),
            itemHandling, joined, toClient, toServer,
            db.origins, acknowledged, everToClient, everToServer, collected)
    }

    /** From state s and trace `before`, the plan of the message has been carried out, up
        to the end or to its first failing action. */
    ghost predicate Ran(s: State, before: seq<Action>, m: Message, ok: bool)
      reads this, db
    {
      && Valid()
      && Outcome(Abs(), ok) == Execute(s, Plan(world, s, m))
      && trace == before + Carried(s, Plan(world, s, m))
    }

    /** A first start on a fresh savefile. */
    constructor (w: World, precollected: seq<int>)
      requires ValidWorld(w)
      ensures Valid() && world == w && fresh(db)
      ensures Abs() == Initial(precollected)
    {
      world := w;
      db := new Savefile(precollected);
      itemHandling, joined, toClient, toServer := 0, false, [], [];
      acknowledged, everToClient, everToServer, collected := {}, [], [], 0;
      trace := [];
    }

    /** New connections to both sides; the savefile stays. */
    method Reconnect()
      requires Valid()
      modifies this
      ensures Valid() && Abs() == Restart(old(Abs())) && trace == old(trace)
    {
      itemHandling, joined, toClient, toServer := 0, false, [], [];
    }

    /* Single actions */

    method SendClient(m: ClientMessage)
      requires Valid()
      modifies this`toClient, this`everToClient, this`trace
      ensures Valid() && Abs() == Tell(old(Abs()), [m]) && trace == old(trace) + [ToClient(m)]
    {
      toClient, everToClient := toClient + [m], everToClient + [m];
      trace := trace + [ToClient(m)];
    }

    method SendServer(m: ServerMessage)
      requires Valid()
      modifies this`toServer, this`everToServer, this`trace
      ensures Valid() && Abs() == Send(old(Abs()), [m]) && trace == old(trace) + [ToServer(m)]
    {
      toServer, everToServer := toServer + [m], everToServer + [m];
      trace := trace + [ToServer(m)];
    }

    method LogItems(items: seq<NetworkItem>, ghost why: seq<Origin>) returns (index: int)
      requires Valid() && |why| == |items|
      modifies this`collected, this`trace, db
      ensures Valid() && Abs() == Do(old(Abs()), Log(items, why)).value
      ensures trace == old(trace) + [Log(items, why)]
      ensures index == LogIndex(old(Abs()), items)
    {
      index := db.AddSentItems(items, why);
      collected := collected + CountCollected(why);
      trace := trace + [Log(items, why)];
    }

    method QueueRows(rows: seq<Outgoing>) returns (ok: bool)
      requires Valid()
      modifies this`trace, db
      ensures Valid() && ok == Do(old(Abs()), Queue(rows)).Some?
      ensures Abs() == if ok then Do(old(Abs()), Queue(rows)).value else old(Abs())
      ensures trace == old(trace) + if ok then [Queue(rows)] else []
    {
      ok := db.AddUnconfirmedItems(rows);
      if ok { trace := trace + [Queue(rows)]; }
    }

    method ClearAll(locs: seq<int>) returns (ok: bool)
      requires Valid()
      modifies this`trace, db
      ensures Valid() && ok == Do(old(Abs()), Clear(locs)).Some?
      ensures Abs() == if ok then Do(old(Abs()), Clear(locs)).value else old(Abs())
      ensures trace == old(trace) + if ok then [Clear(locs)] else []
    {
      ok := db.ClearLocations(locs);
      if ok { trace := trace + [Clear(locs)]; }
    }

    method MarkReceived(item: Item) returns (ok: bool)
      requires Valid()
      modifies this`trace, db`received
      ensures Valid() && ok == Do(old(Abs()), Mark(item)).Some?
      ensures Abs() == if ok then Do(old(Abs()), Mark(item)).value else old(Abs())
      ensures ok == (item !in old(db.received)) && db.received == old(db.received) + {item}
      ensures trace == old(trace) + if ok then [Mark(item)] else []
    {
      ok := db.AddReceivedItem(item);
      if ok { trace := trace + [Mark(item)]; }
      assert !ok ==> old(db.received) + {item} == old(db.received);
    }

    /** addSentItems followed by a report under a flag. */
    method LogAndReport(items: seq<NetworkItem>, ghost why: seq<Origin>, tell: bool)
      requires Valid() && |why| == |items|
      modifies this, db
      ensures Valid() && Abs() == LogAndTell(old(Abs()), items, why, tell)
      ensures var report := if tell then [ToClient(ReceivedItems(LogIndex(old(Abs()), items), items))] else [];
              trace == old(trace) + ([Log(items, why)] + report)
    {
      var index := LogItems(items, why);
      if tell { SendClient(ReceivedItems(index, items)); }
    }

    /** Several rows to the server, in order. */
    method SendRows(rows: seq<Outgoing>)
      requires Valid()
      modifies this
      ensures Valid() && Abs() == Send(old(Abs()), DataSends(rows)) && trace == old(trace) + Sends(rows)
    {
      for i := 0 to |rows|
        invariant Valid() && Abs() == Send(old(Abs()), DataSends(rows)[..i])
        invariant trace == old(trace) + Sends(rows)[..i]
      {
        ghost var sent := DataSends(rows);
        assert sent[..i + 1] == sent[..i] + [DataSend(rows[i])];
        ghost var s := old(Abs());
        assert s.toServer + sent[..i] + [sent[i]] == s.toServer + sent[..i + 1];
        assert s.everToServer + sent[..i] + [sent[i]] == s.everToServer + sent[..i + 1];
        SendServer(DataSend(rows[i]));
      }
      assert DataSends(rows)[..|rows|] == DataSends(rows) && Sends(rows)[..|rows|] == Sends(rows);
    }

    /* Handlers */

    method HandleJoinConfirm()
      requires Valid()
      modifies this
      ensures Ran(old(Abs()), old(trace), JoinConfirm, true)
    {
      ghost var s := Abs();
      JoinEffect(s);
      CarriedWhole(s, Sends(s.unconfirmed) + [Joined]);
      SendRows(db.unconfirmed);
      joined := true;
      trace := trace + [Joined];
    }

    method HandleDataReceive(item: Item, from: string, fromID: int)
      requires Valid()
      modifies this, db
      ensures Ran(old(Abs()), old(trace), DataReceive(item, from, fromID), true)
    {
      if item.tag != LABEL { return; }
      if !(0 <= fromID < |world.games|) { return; }
      var duplicate := db.HasReceivedItem(item);
      if duplicate { return; }
      ghost var s := Abs();
      ReceiveEffect(world, s, item, from, fromID);
      var entry := ReceivedEntry(world, item.content, fromID);
      ghost var plan := ReceivePlan(world, s, item, from, fromID);
      CarriedWhole(s, plan);
      LogAndReport([entry], [Received(item)], OthersBit(itemHandling));
      SendServer(ReceiveConfirm(item, from));
      var _ := MarkReceived(item);
      SendServer(Save);
      ghost var t := LogAndTell(s, [entry], [Received(item)], OthersBit(s.flags));
      SendTwo(t, ReceiveConfirm(item, from), Save);
      ghost var report := if OthersBit(s.flags) then [ToClient(ReceivedItems(|s.log|, [entry]))] else [];
      AppendThree(old(trace), [Log([entry], [Received(item)])] + report,
                  ToServer(ReceiveConfirm(item, from)), Mark(item), ToServer(Save));
    }

    /** The loop over a batch: marks what is new and collects its entries. */
    method MarkBatch(items: seq<Item>, fromID: int) returns (entries: seq<NetworkItem>)
      requires Valid() && fromID < |world.games|
      modifies this`trace, db`received
      ensures Valid()
      ensures var accepted := Accepted(old(Abs()).received, items);
              && entries == BatchEntries(world, accepted, fromID)
              && Abs() == old(Abs()).(received := old(Abs()).received + Elements(accepted))
              && trace == old(trace) + Marks(accepted)
    {
      entries := [];
      ghost var accepted := [];
      ghost var s := Abs();
      for i := 0 to |items|
        invariant Valid() && db.received == s.received + Elements(accepted)
        invariant trace == old(trace) + Marks(accepted)
        invariant Accepted(s.received, items) == accepted + Accepted(s.received + Elements(accepted), items[i..])
        invariant entries == BatchEntries(world, accepted, fromID)
      {
        var item := items[i];
        var duplicate := db.HasReceivedItem(item);
        if item.tag != LABEL || duplicate {
          AcceptedSkip(db.received, items, i);
          continue;
        }
        BatchNext(world, s.received, items, i, accepted, fromID, old(trace));
        entries := entries + [ReceivedEntry(world, item.content, fromID)];
        accepted := accepted + [item];
        var _ := MarkReceived(item);
      }
      assert items[|items|..] == [];
    }

    method HandleDatasReceive(items: seq<Item>, from: string)
      requires Valid()
      modifies this, db
      ensures Ran(old(Abs()), old(trace), DatasReceive(items, from), true)
    {
      ghost var s := Abs();
      BatchEffect(world, s, items, from);
      ghost var accepted := Accepted(s.received, items);
      CarriedWhole(s, BatchPlan(world, s, items, from));
      var entries := MarkBatch(items, NicknameIndex(world.nicknames, from));
      LogAndReport(entries, ReceivedOrigins(accepted), OthersBit(itemHandling));
      ghost var t := Abs();
      SendServer(BatchConfirm(|items|, from));
      SendServer(Save);
      SendTwo(t, BatchConfirm(|items|, from), Save);
      ghost var report := if OthersBit(s.flags) then [ToClient(ReceivedItems(LogIndex(s, entries), entries))] else [];
      AppendTwo(old(trace), Marks(accepted), [Log(entries, ReceivedOrigins(accepted))] + report,
                ToServer(BatchConfirm(|items|, from)), ToServer(Save));
    }

    method HandleDataSendConfirm(row: Outgoing)
      requires Valid()
      modifies this, db
      ensures Ran(old(Abs()), old(trace), DataSendConfirm(row), true)
    {
      ghost var s := Abs();
      ExecuteCons(s, Settle(row), []);
      assert [Settle(row)] + [] == [Settle(row)];
      CarriedWhole(s, [Settle(row)]);
      var confirmed := db.ConfirmItem(row);
      acknowledged := acknowledged + {row};
      trace := trace + [Settle(row)];
    }

    /** Without items_handling the source dereferences nil: the value it puts in its
        place is overwritten from the same pointer. */
    method HandleConnect(itemsHandling: Option<int>) returns (ok: bool)
      requires Valid()
      modifies this
      ensures Ran(old(Abs()), old(trace), Connect(itemsHandling), ok)
    {
      ghost var s := Abs();
      SendServer(Join);
      if itemsHandling.None? {
        ExecuteTwo(s, ToServer(Join), NilDereference);
        CarriedConcat(s, [ToServer(Join)], [NilDereference]);
        ExecuteCons(s, ToServer(Join), []);
        assert [ToServer(Join)] + [NilDereference] == [ToServer(Join), NilDereference];
        assert [ToServer(Join)] + [] == [ToServer(Join)];
        return false;
      }
      var flags := itemsHandling.value;
      ConnectEffect(s, flags);
      itemHandling := flags;
      trace := trace + [SetFlags(flags)];
      SendClient(Connected(db.cleared));
      var items := db.GetSentItems();
      SendClient(ReceivedItems(0, items));
      TellTwo(Send(s, [Join]).(flags := flags), Connected(s.cleared), ReceivedItems(0, s.log));
      CarriedWhole(s, ConnectPlan(s, itemsHandling));
      assert trace == old(trace) + ConnectPlan(s, itemsHandling);
      ok := true;
    }

    method HandleSync()
      requires Valid()
      modifies this
      ensures Ran(old(Abs()), old(trace), Sync, true)
    {
      SyncEffect(Abs());
      CarriedWhole(Abs(), SyncPlan(Abs()));
      if !OwnBit(itemHandling) { return; }
      var items := db.GetSentItems();
      SendClient(ReceivedItems(0, items));
    }

    method HandleCollect()
      requires Valid()
      modifies this, db
      ensures Ran(old(Abs()), old(trace), Collect, true)
    {
      CollectEffect(world, Abs());
      ghost var plan := CollectPlan(world, Abs());
      var own := Collectable(world, db.received, world.ownItems);
      var items := [];
      for i := 0 to |own|
        invariant items == plan[0].items[..i]
      {
        assert own[i] in world.ownItems;
        items := items + [CollectedEntry(world, own[i])];
      }
      assert items == plan[0].items;
      ghost var s := Abs();
      LogAndReport(items, plan[0].why, true);
      CarriedWhole(s, plan);
      assert plan == [plan[0]] + [plan[1]];
    }

    /** The loop over our placements before a release. */
    method FindReleasable() returns (rows: seq<Outgoing>, locs: seq<int>)
      requires Valid()
      ensures var ps := Releasable(world, Abs().cleared, world.placements);
              rows == Rows(ps) && locs == Locs(ps)
    {
      rows, locs := [], [];
      ghost var ps := [];
      for i := 0 to |world.placements|
        invariant rows == Rows(ps) && locs == Locs(ps)
        invariant Releasable(world, db.cleared, world.placements) ==
                  ps + Releasable(world, db.cleared, world.placements[i..])
      {
        var p := world.placements[i];
        ReleasableNext(world, db.cleared, world.placements, i, ps);
        if p.owner == world.playerID { continue; }
        var cleared := db.IsLocationCleared(p.loc);
        if cleared { continue; }
        RowsNext(ps, p);
        rows, locs, ps := rows + [Row(p)], locs + [p.loc], ps + [p];
      }
      assert world.placements[|world.placements|..] == [];
    }

    method HandleRelease() returns (ok: bool)
      requires Valid()
      modifies this, db
      ensures Ran(old(Abs()), old(trace), Release, ok)
    {
      ghost var s := Abs();
      var rows, locs := FindReleasable();
      ReleaseUnfolds(world, s, rows, locs);
      ok := QueueRows(rows);
      if !ok { return; }
      ghost var t := Abs();
      ok := ClearAndSend(rows, locs);
      Regroup(old(trace), [Queue(rows)], Carried(t, [Clear(locs)] + Sends(rows)));
    }

    /** A release once its rows are stored. */
    method ClearAndSend(rows: seq<Outgoing>, locs: seq<int>) returns (ok: bool)
      requires Valid()
      modifies this, db
      ensures Valid() && Outcome(Abs(), ok) == Execute(old(Abs()), [Clear(locs)] + Sends(rows))
      ensures trace == old(trace) + Carried(old(Abs()), [Clear(locs)] + Sends(rows))
    {
      ghost var s := Abs();
      ExecuteCons(s, Clear(locs), Sends(rows));
      CarriedCons(s, Clear(locs), Sends(rows));
      ok := ClearAll(locs);
      if !ok { return; }
      SendsEffect(Abs(), rows);
      CarriedWhole(Abs(), Sends(rows));
      SendRows(rows);
      Regroup(old(trace), [Clear(locs)], Sends(rows));
    }

    /** One location of a LocationChecks message. */
    method CheckLocation(loc: int) returns (ok: bool)
      requires Valid()
      modifies this, db
      ensures Valid() && Outcome(Abs(), ok) == Execute(old(Abs()), CheckPlan(world, old(Abs()), loc))
      ensures trace == old(trace) + Carried(old(Abs()), CheckPlan(world, old(Abs()), loc))
    {
      var checked := db.IsLocationCleared(loc);
      if checked { return true; }
      var p := PlacedAt(world, loc);
      if p.Some? && p.value.owner != world.playerID {
        ok := CheckForeign(p.value);
      } else {
        if p.None? {
          if !OwnBit(itemHandling) { return true; }
          if !(loc in world.ownLocations && |world.ownLocations[loc]| >= 3) { return true; }
        }
        ok := CheckOwn(loc);
      }
    }

    /** Another player's item: store its row, send it, clear the location. */
    method CheckForeign(p: Placement) returns (ok: bool)
      requires Valid() && PlacedAt(world, p.loc) == Some(p) && p.owner != world.playerID && p.loc !in db.cleared
      modifies this, db
      ensures Valid() && Outcome(Abs(), ok) == Execute(old(Abs()), CheckPlan(world, old(Abs()), p.loc))
      ensures trace == old(trace) + Carried(old(Abs()), CheckPlan(world, old(Abs()), p.loc))
    {
      ghost var s := Abs();
      ghost var plan := CheckPlan(world, s, p.loc);
      ForeignCheckEffect(world, s, p.loc);
      NewRow(s, Row(p));
      ok := QueueRows([Row(p)]);
      if !ok {
        assert plan[0] == Queue([Row(p)]);
        return;
      }
      SendServer(DataSend(Row(p)));
      assert Elements([p.loc]) == {p.loc};
      assert Abs().cleared == s.cleared;
      ok := ClearAll([p.loc]);
      CarriedWhole(s, plan);
      assert trace == old(trace) + plan;
    }

    /** Our own item or an unshuffled one: log it, report it, clear the location. */
    method CheckOwn(loc: int) returns (ok: bool)
      requires Valid() && !Foreign(world, loc) && CheckPlan(world, Abs(), loc) != []
      modifies this, db
      ensures Valid() && Outcome(Abs(), ok) == Execute(old(Abs()), CheckPlan(world, old(Abs()), loc))
      ensures trace == old(trace) + Carried(old(Abs()), CheckPlan(world, old(Abs()), loc))
    {
      ghost var s := Abs();
      ghost var plan := CheckPlan(world, s, loc);
      OwnCheckEffect(world, s, loc);
      LogAndReport([CheckedEntry(world, loc).value], [Checked(loc)], OwnBit(itemHandling));
      assert Elements([loc]) == {loc};
      assert Abs().cleared == s.cleared;
      ok := ClearAll([loc]);
      CarriedWhole(s, plan);
      assert trace == old(trace) + plan;
    }

    method HandleLocationChecks(locs: seq<int>) returns (ok: bool)
      requires Valid()
      modifies this, db
      ensures Ran(old(Abs()), old(trace), LocationChecks(locs), ok)
    {
      ghost var plan := ChecksPlan(world, Abs(), locs);
      ghost var all, acts := Execute(Abs(), plan), trace + Carried(Abs(), plan);
      for i := 0 to |locs|
        invariant Valid()
        invariant Execute(Abs(), ChecksPlan(world, Abs(), locs[i..])) == all
        invariant trace + Carried(Abs(), ChecksPlan(world, Abs(), locs[i..])) == acts
      {
        ghost var s := Abs();
        ChecksUnfold(world, s, locs[i..]);
        CarriedChecks(world, s, locs[i..]);
        assert locs[i..][1..] == locs[i + 1..];
        ghost var before := trace;
        ok := CheckLocation(locs[i]);
        if !ok { return; }
        Regroup(before, Carried(s, CheckPlan(world, s, locs[i])),
                Carried(Abs(), ChecksPlan(world, Abs(), locs[i + 1..])));
      }
      assert locs[|locs|..] == [];
      ok := true;
    }
  }
}
