/** What each handler amounts to when it is carried out whole. */
module Handlers {
  import opened Collections
  import opened Options
  import opened Exchange

  function Tell(s: State, msgs: seq<ClientMessage>): State {
    s.(toClient := s.toClient + msgs, everToClient := s.everToClient + msgs)
  }

  function Send(s: State, msgs: seq<ServerMessage>): State {
    s.(toServer := s.toServer + msgs, everToServer := s.everToServer + msgs)
  }

  lemma SendTwo(s: State, a: ServerMessage, b: ServerMessage)
    ensures Send(Send(s, [a]), [b]) == Send(s, [a, b])
  {
    assert s.toServer + [a] + [b] == s.toServer + [a, b];
    assert s.everToServer + [a] + [b] == s.everToServer + [a, b];
  }

  lemma TellTwo(s: State, a: ClientMessage, b: ClientMessage)
    ensures Tell(Tell(s, [a]), [b]) == Tell(s, [a, b])
  {
    assert s.toClient + [a] + [b] == s.toClient + [a, b];
    assert s.everToClient + [a] + [b] == s.everToClient + [a, b];
  }

  /** addSentItems followed by the report to the client. */
  function LogAndTell(s: State, items: seq<NetworkItem>, why: seq<Origin>, tell: bool): State {
    var t := Do(s, Log(items, why)).value;
    if tell then Tell(t, [ReceivedItems(LogIndex(s, items), items)]) else t
  }

  lemma ExecuteLogAndTell(s: State, items: seq<NetworkItem>, why: seq<Origin>, tell: bool, rest: seq<Action>)
    ensures var report := if tell then [ToClient(ReceivedItems(LogIndex(s, items), items))] else [];
            Execute(s, [Log(items, why)] + report + rest) == Execute(LogAndTell(s, items, why, tell), rest)
  {
    var report := if tell then [ToClient(ReceivedItems(LogIndex(s, items), items))] else [];
    var t := Do(s, Log(items, why)).value;
    ExecuteConcat(t, report, rest);
    ExecuteOptional(t, report);
    ExecuteCons(s, Log(items, why), report + rest);
    assert [Log(items, why)] + report + rest == [Log(items, why)] + (report + rest);
  }

  /** The actions that are carried out: those before the first that fails. */
  function Carried(s: State, plan: seq<Action>): seq<Action>
    decreases |plan|
  {
    if plan == [] || Do(s, plan[0]).None? then []
    else [plan[0]] + Carried(Do(s, plan[0]).value, plan[1..])
  }

  lemma {:induction false} CarriedWhole(s: State, plan: seq<Action>)
    requires Execute(s, plan).ok
    ensures Carried(s, plan) == plan
    decreases |plan|
  {
    if plan != [] { CarriedWhole(Do(s, plan[0]).value, plan[1..]); }
  }

  lemma CarriedCons(s: State, a: Action, rest: seq<Action>)
    ensures Carried(s, [a] + rest) == if Do(s, a).None? then [] else [a] + Carried(Do(s, a).value, rest)
  {
    assert ([a] + rest)[1..] == rest;
  }

  lemma {:induction false} CarriedConcat(s: State, a: seq<Action>, b: seq<Action>)
    ensures Carried(s, a + b) ==
            if Execute(s, a).ok then a + Carried(Execute(s, a).state, b) else Carried(s, a)
    decreases |a|
  {
    if a == [] {
      assert a + b == b;
    } else {
      assert (a + b)[1..] == a[1..] + b;
      var next := Do(s, a[0]);
      if next.Some? { CarriedConcat(next.value, a[1..], b); }
    }
  }

  lemma ExecuteTwo(s: State, a: Action, b: Action)
    ensures Execute(s, [a, b]) ==
            if Do(s, a).None? then Outcome(s, false)
            else if Do(Do(s, a).value, b).None? then Outcome(Do(s, a).value, false)
            else Outcome(Do(Do(s, a).value, b).value, true)
  {
    ExecuteCons(s, a, [b]);
    assert [a, b] == [a] + [b];
    assert [b][1..] == [];
  }

  lemma ExecuteThree(s: State, a: Action, b: Action, c: Action)
    requires Do(s, a).Some?
    ensures Execute(s, [a, b, c]) == Execute(Do(s, a).value, [b, c])
  {
    ExecuteCons(s, a, [b, c]);
    assert [a, b, c] == [a] + [b, c];
  }

  lemma ReceiveEffect(w: World, s: State, item: Item, from: string, fromID: int)
    requires Accepts(w, s, item, fromID)
    ensures var entry := ReceivedEntry(w, item.content, fromID);
            Execute(s, ReceivePlan(w, s, item, from, fromID)) ==
            Outcome(Send(LogAndTell(s, [entry], [Received(item)], OthersBit(s.flags)),
                         [ReceiveConfirm(item, from), Save])
                    .(received := s.received + {item}), true)
  {
    var entry := ReceivedEntry(w, item.content, fromID);
    var tail := [ToServer(ReceiveConfirm(item, from)), Mark(item), ToServer(Save)];
    ExecuteLogAndTell(s, [entry], [Received(item)], OthersBit(s.flags), tail);
    var t := LogAndTell(s, [entry], [Received(item)], OthersBit(s.flags));
    ExecuteThree(t, tail[0], tail[1], tail[2]);
    ExecuteTwo(Do(t, tail[0]).value, tail[1], tail[2]);
    SendTwo(t, ReceiveConfirm(item, from), Save);
  }

  lemma {:induction false} MarksEffect(s: State, items: seq<Item>)
    requires NoRepeats(items) && forall x :: x in items ==> x !in s.received
    ensures Execute(s, Marks(items)) == Outcome(s.(received := s.received + Elements(items)), true)
    decreases |items|
  {
    if items == [] {
      assert s.received + Elements(items) == s.received;
    } else {
      assert Marks(items) == [Mark(items[0])] + Marks(items[1..]);
      ExecuteCons(s, Mark(items[0]), Marks(items[1..]));
      var t := Do(s, Mark(items[0])).value;
      MarksEffect(t, items[1..]);
      assert s.received + Elements(items) == t.received + Elements(items[1..]);
    }
  }

  lemma LogTellSend(s: State, items: seq<NetworkItem>, why: seq<Origin>, tell: bool,
                    a: ServerMessage, b: ServerMessage)
    ensures var report := if tell then [ToClient(ReceivedItems(LogIndex(s, items), items))] else [];
            Execute(s, [Log(items, why)] + report + [ToServer(a), ToServer(b)]) ==
            Outcome(Send(LogAndTell(s, items, why, tell), [a, b]), true)
  {
    ExecuteLogAndTell(s, items, why, tell, [ToServer(a), ToServer(b)]);
    var u := LogAndTell(s, items, why, tell);
    ExecuteTwo(u, ToServer(a), ToServer(b));
    SendTwo(u, a, b);
  }

  lemma BatchEffect(w: World, s: State, items: seq<Item>, from: string)
    requires |w.games| == |w.nicknames|
    ensures var accepted := Accepted(s.received, items);
            var entries := BatchEntries(w, accepted, NicknameIndex(w.nicknames, from));
            Execute(s, BatchPlan(w, s, items, from)) ==
            Outcome(Send(LogAndTell(s, entries, ReceivedOrigins(accepted), OthersBit(s.flags)),
                         [BatchConfirm(|items|, from), Save])
                    .(received := s.received + Elements(accepted)), true)
  {
    var accepted := Accepted(s.received, items);
    var entries := BatchEntries(w, accepted, NicknameIndex(w.nicknames, from));
    var why := ReceivedOrigins(accepted);
    var t := s.(received := s.received + Elements(accepted));
    MarksEffect(s, accepted);
    LogTellSend(t, entries, why, OthersBit(s.flags), BatchConfirm(|items|, from), Save);
    var report := if OthersBit(s.flags) then [ToClient(ReceivedItems(LogIndex(s, entries), entries))] else [];
    ExecuteConcat(s, Marks(accepted),
                  [Log(entries, why)] + report + [ToServer(BatchConfirm(|items|, from)), ToServer(Save)]);
  }

  function DataSends(rows: seq<Outgoing>): seq<ServerMessage> {
    seq(|rows|, i requires 0 <= i < |rows| => DataSend(rows[i]))
  }

  lemma {:induction false} SendsEffect(s: State, rows: seq<Outgoing>)
    ensures Execute(s, Sends(rows)) == Outcome(Send(s, DataSends(rows)), true)
    decreases |rows|
  {
    if rows == [] {
      assert Sends(rows) == [];
      assert Send(s, DataSends(rows)) == s;
    } else {
      var m := DataSend(rows[0]);
      assert Sends(rows) == [ToServer(m)] + Sends(rows[1..]);
      ExecuteCons(s, ToServer(m), Sends(rows[1..]));
      SendsEffect(Send(s, [m]), rows[1..]);
      assert DataSends(rows) == [m] + DataSends(rows[1..]);
      assert s.toServer + [m] + DataSends(rows[1..]) == s.toServer + DataSends(rows);
      assert s.everToServer + [m] + DataSends(rows[1..]) == s.everToServer + DataSends(rows);
    }
  }

  lemma JoinEffect(s: State)
    ensures Execute(s, Sends(s.unconfirmed) + [Joined]) ==
            Outcome(Send(s, DataSends(s.unconfirmed)).(joined := true), true)
  {
    SendsEffect(s, s.unconfirmed);
    ExecuteConcat(s, Sends(s.unconfirmed), [Joined]);
    ExecuteCons(Send(s, DataSends(s.unconfirmed)), Joined, []);
    assert [Joined] + [] == [Joined];
  }

  lemma ExecuteTells(s: State, a: ClientMessage, b: ClientMessage)
    ensures Execute(s, [ToClient(a), ToClient(b)]) == Outcome(Tell(s, [a, b]), true)
  {
    ExecuteTwo(s, ToClient(a), ToClient(b));
    TellTwo(s, a, b);
  }

  lemma ConnectEffect(s: State, flags: int)
    ensures Execute(s, ConnectPlan(s, Some(flags))) ==
            Outcome(Tell(Send(s, [Join]), [Connected(s.cleared), ReceivedItems(0, s.log)]).(flags := flags), true)
  {
    var a, b := Connected(s.cleared), ReceivedItems(0, s.log);
    var rest := [ToClient(a), ToClient(b)];
    ExecuteCons(s, ToServer(Join), [SetFlags(flags)] + rest);
    var t := Send(s, [Join]);
    ExecuteCons(t, SetFlags(flags), rest);
    ExecuteTells(t.(flags := flags), a, b);
    assert ConnectPlan(s, Some(flags)) == [ToServer(Join)] + ([SetFlags(flags)] + rest);
  }

  lemma CollectEffect(w: World, s: State)
    requires ValidWorld(w)
    ensures var plan := CollectPlan(w, s);
            Execute(s, plan) == Outcome(LogAndTell(s, plan[0].items, plan[0].why, true), true)
  {
    var plan := CollectPlan(w, s);
    ExecuteLogAndTell(s, plan[0].items, plan[0].why, true, []);
    assert plan == [plan[0]] + [plan[1]] + [];
  }

  ghost predicate Ascending(ps: seq<Placement>) {
    forall i, j :: 0 <= i < j < |ps| ==> ps[i].loc < ps[j].loc
  }

  lemma AscendingCons(p: Placement, rest: seq<Placement>)
    requires Ascending(rest) && forall i :: 0 <= i < |rest| ==> p.loc < rest[i].loc
    ensures Ascending([p] + rest)
  {
  }

  lemma {:induction false} ReleasableAscending(w: World, cleared: set<int>, ps: seq<Placement>)
    requires Ascending(ps)
    ensures Ascending(Releasable(w, cleared, ps))
  {
    if ps != [] {
      ReleasableAscending(w, cleared, ps[1..]);
      var rest := Releasable(w, cleared, ps[1..]);
      forall i | 0 <= i < |rest|
        ensures ps[0].loc < rest[i].loc
      {
        assert rest[i] in rest;
        var j :| 0 <= j < |ps[1..]| && ps[1..][j] == rest[i];
        assert ps[j + 1] == rest[i];
      }
      AscendingCons(ps[0], rest);
    }
  }

  lemma ReleasableDistinct(w: World, cleared: set<int>)
    requires ValidWorld(w)
    ensures NoRepeats(Locs(Releasable(w, cleared, w.placements)))
  {
    ReleasableAscending(w, cleared, w.placements);
    var ps := Releasable(w, cleared, w.placements);
    forall i, j | 0 <= i < j < |ps|
      ensures Locs(ps)[i] != Locs(ps)[j]
    {
      assert ps[i].loc < ps[j].loc;
    }
  }

  /** The state after a release that went through. */
  function Released(s: State, ps: seq<Placement>): State {
    Send(s.(unconfirmed := s.unconfirmed + Rows(ps), cleared := s.cleared + Elements(Locs(ps))),
         DataSends(Rows(ps)))
  }

  lemma ReleaseEffect(w: World, s: State)
    requires ValidWorld(w)
    ensures var ps := Releasable(w, s.cleared, w.placements);
            Execute(s, ReleasePlan(w, s)) ==
            if Do(s, Queue(Rows(ps))).None? then Outcome(s, false) else Outcome(Released(s, ps), true)
  {
    var ps := Releasable(w, s.cleared, w.placements);
    var rows, locs := Rows(ps), Locs(ps);
    ExecuteCons(s, Queue(rows), [Clear(locs)] + Sends(rows));
    assert ReleasePlan(w, s) == [Queue(rows)] + ([Clear(locs)] + Sends(rows));
    if Do(s, Queue(rows)).Some? {
      var t := Do(s, Queue(rows)).value;
      ExecuteCons(t, Clear(locs), Sends(rows));
      ReleasableDistinct(w, s.cleared);
      ReleasableUncleared(w, s.cleared);
      SendsEffect(Do(t, Clear(locs)).value, rows);
    }
  }

  lemma ReleasableUncleared(w: World, cleared: set<int>)
    ensures AllNew(Locs(Releasable(w, cleared, w.placements)), cleared)
  {
    var ps := Releasable(w, cleared, w.placements);
    forall l | l in Locs(ps)
      ensures l !in cleared
    {
      var i :| 0 <= i < |ps| && ps[i].loc == l;
      assert ps[i] in ps;
    }
  }

  /** A release is the insertion of the rows, then the rest. */
  lemma ReleaseUnfolds(w: World, s: State, rows: seq<Outgoing>, locs: seq<int>)
    requires var ps := Releasable(w, s.cleared, w.placements); rows == Rows(ps) && locs == Locs(ps)
    ensures var rest, next := [Clear(locs)] + Sends(rows), Do(s, Queue(rows));
            && Execute(s, ReleasePlan(w, s)) ==
               (if next.None? then Outcome(s, false) else Execute(next.value, rest))
            && Carried(s, ReleasePlan(w, s)) ==
               (if next.None? then [] else [Queue(rows)] + Carried(next.value, rest))
  {
    var rest := [Clear(locs)] + Sends(rows);
    assert ReleasePlan(w, s) == [Queue(rows)] + rest;
    ExecuteCons(s, Queue(rows), rest);
    CarriedCons(s, Queue(rows), rest);
  }

  lemma SyncEffect(s: State)
    ensures Execute(s, SyncPlan(s)) ==
            Outcome(if OwnBit(s.flags) then Tell(s, [ReceivedItems(0, s.log)]) else s, true)
  {
    ExecuteOptional(s, SyncPlan(s));
  }

  lemma OwnCheckEffect(w: World, s: State, loc: int)
    requires !Foreign(w, loc) && CheckPlan(w, s, loc) != []
    ensures loc !in s.cleared && CheckedEntry(w, loc).Some?
    ensures Execute(s, CheckPlan(w, s, loc)) ==
            Outcome(LogAndTell(s, [CheckedEntry(w, loc).value], [Checked(loc)], OwnBit(s.flags))
                    .(cleared := s.cleared + {loc}), true)
  {
    var entry := CheckedEntry(w, loc).value;
    ExecuteLogAndTell(s, [entry], [Checked(loc)], OwnBit(s.flags), [Clear([loc])]);
    var t := LogAndTell(s, [entry], [Checked(loc)], OwnBit(s.flags));
    ExecuteCons(t, Clear([loc]), []);
    assert [Clear([loc])] + [] == [Clear([loc])];
    assert Elements([loc]) == {loc};
  }

  lemma ForeignCheckEffect(w: World, s: State, loc: int)
    requires Foreign(w, loc) && loc !in s.cleared
    ensures var row := Row(PlacedAt(w, loc).value);
            Execute(s, CheckPlan(w, s, loc)) ==
            if row in s.unconfirmed then Outcome(s, false)
            else Outcome(Send(s, [DataSend(row)]).(unconfirmed := s.unconfirmed + [row],
                                                   cleared := s.cleared + {loc}), true)
  {
    var row := Row(PlacedAt(w, loc).value);
    var a, b, c := Queue([row]), ToServer(DataSend(row)), Clear([loc]);
    ExecuteCons(s, a, [b, c]);
    assert [a, b, c] == [a] + [b, c];
    assert Disjoint([row], s.unconfirmed) <==> row !in s.unconfirmed by {
      assert row in [row];
    }
    if row !in s.unconfirmed {
      ExecuteTwo(Do(s, a).value, b, c);
      assert Elements([loc]) == {loc};
    }
  }

  /** A list of checks is one check after the other; the first failure stops it. */
  lemma ChecksUnfold(w: World, s: State, locs: seq<int>)
    requires locs != []
    ensures var o := Execute(s, CheckPlan(w, s, locs[0]));
            Execute(s, ChecksPlan(w, s, locs)) ==
            if o.ok then Execute(o.state, ChecksPlan(w, o.state, locs[1..])) else o
  {
    var first := CheckPlan(w, s, locs[0]);
    var o := Execute(s, first);
    if o.ok { ExecuteConcat(s, first, ChecksPlan(w, o.state, locs[1..])); }
  }

  lemma CarriedChecks(w: World, s: State, locs: seq<int>)
    requires locs != []
    ensures var first := CheckPlan(w, s, locs[0]); var o := Execute(s, first);
            Carried(s, ChecksPlan(w, s, locs)) ==
            Carried(s, first) + if o.ok then Carried(o.state, ChecksPlan(w, o.state, locs[1..])) else []
  {
    var first := CheckPlan(w, s, locs[0]);
    var o := Execute(s, first);
    if o.ok {
      CarriedConcat(s, first, ChecksPlan(w, o.state, locs[1..]));
      CarriedWhole(s, first);
    } else {
      assert Carried(s, first) + [] == Carried(s, first);
    }
  }

  /* One more element, for the loops of the handlers */

  lemma AcceptedSkip(received: set<Item>, items: seq<Item>, i: nat)
    requires i < |items| && (items[i].tag != LABEL || items[i] in received)
    ensures Accepted(received, items[i..]) == Accepted(received, items[i + 1..])
  {
    assert items[i..][1..] == items[i + 1..];
  }

  lemma AcceptedTake(received: set<Item>, items: seq<Item>, i: nat, done: seq<Item>)
    requires i < |items| && items[i].tag == LABEL && items[i] !in received
    ensures done + Accepted(received, items[i..]) ==
            (done + [items[i]]) + Accepted(received + {items[i]}, items[i + 1..])
  {
    assert items[i..][1..] == items[i + 1..];
    var rest := Accepted(received + {items[i]}, items[i + 1..]);
    assert Accepted(received, items[i..]) == [items[i]] + rest;
    assert done + ([items[i]] + rest) == done + [items[i]] + rest;
  }

  lemma BatchEntriesNext(w: World, items: seq<Item>, item: Item, from: int)
    requires from < |w.games|
    ensures BatchEntries(w, items + [item], from) ==
            BatchEntries(w, items, from) + [ReceivedEntry(w, item.content, from)]
  {
  }

  lemma MarksNext(before: seq<Action>, items: seq<Item>, item: Item)
    ensures before + Marks(items) + [Mark(item)] == before + Marks(items + [item])
  {
    assert Marks(items + [item]) == Marks(items) + [Mark(item)];
  }

  /** One more item of a batch that is new. */
  lemma BatchNext(w: World, received: set<Item>, items: seq<Item>, i: nat, done: seq<Item>, from: int,
                  before: seq<Action>)
    requires i < |items| && items[i].tag == LABEL && items[i] !in received + Elements(done) && from < |w.games|
    requires Accepted(received, items) == done + Accepted(received + Elements(done), items[i..])
    ensures var next := done + [items[i]];
            && received + Elements(next) == received + Elements(done) + {items[i]}
            && Accepted(received, items) == next + Accepted(received + Elements(next), items[i + 1..])
            && BatchEntries(w, next, from) ==
               BatchEntries(w, done, from) + [ReceivedEntry(w, items[i].content, from)]
            && before + Marks(done) + [Mark(items[i])] == before + Marks(next)
  {
    var next := done + [items[i]];
    ElementsSnoc(done, items[i]);
    assert received + Elements(next) == received + Elements(done) + {items[i]};
    AcceptedTake(received + Elements(done), items, i, done);
    BatchEntriesNext(w, done, items[i], from);
    MarksNext(before, done, items[i]);
  }

  lemma AppendThree(before: seq<Action>, x: seq<Action>, a: Action, b: Action, c: Action)
    ensures before + x + [a] + [b] + [c] == before + (x + [a, b, c])
  {
  }

  lemma AppendTwo(before: seq<Action>, marks: seq<Action>, x: seq<Action>, a: Action, b: Action)
    ensures before + marks + x + [a] + [b] == before + (marks + (x + [a, b]))
  {
  }

  lemma NewRow(s: State, row: Outgoing)
    ensures Do(s, Queue([row])).Some? <==> row !in s.unconfirmed
  {
    assert row in [row];
  }

  lemma ReleasableNext(w: World, cleared: set<int>, ps: seq<Placement>, i: nat, done: seq<Placement>)
    requires i < |ps|
    requires Releasable(w, cleared, ps) == done + Releasable(w, cleared, ps[i..])
    ensures var next := if ps[i].owner != w.playerID && ps[i].loc !in cleared then done + [ps[i]] else done;
            Releasable(w, cleared, ps) == next + Releasable(w, cleared, ps[i + 1..])
  {
    assert ps[i..][1..] == ps[i + 1..];
    var rest := Releasable(w, cleared, ps[i + 1..]);
    assert done + ([ps[i]] + rest) == done + [ps[i]] + rest;
  }

  lemma RowsNext(ps: seq<Placement>, p: Placement)
    ensures Rows(ps + [p]) == Rows(ps) + [Row(p)] && Locs(ps + [p]) == Locs(ps) + [p.loc]
  {
  }
}
