/** The tables of the savefile and the statements run on them
    (cmd/isthmus/savefile.go). The fields hold what is committed. A transaction works
    on a copy and commits it at the end, so that one which fails leaves no trace. */
module SavefileTables {
  import opened Collections
  import opened Exchange

  /** The row IDs in use are 1 to n. */
  ghost predicate Dense(table: map<int, NetworkItem>, n: nat) {
    forall k :: k in table <==> 1 <= k <= n
  }

  ghost function RowsInOrder(table: map<int, NetworkItem>, n: nat): seq<NetworkItem>
    requires Dense(table, n)
  {
    seq(n, i requires 0 <= i < n => table[i + 1])
  }

  /** The row ID SQLite picks: one more than the largest in use, starting at 1. */
  method NextRowID(table: map<int, NetworkItem>, ghost n: nat) returns (id: int)
    requires Dense(table, n)
    ensures id == n + 1
  {
    id := 1;
    var left := table.Keys;
    while left != {}
      invariant left <= table.Keys
      invariant id >= 1
      invariant forall k :: k in table && k !in left ==> k < id
      invariant id == 1 || id - 1 in table
      decreases left
    {
      var k := Pick(left);
      assert k in table;
      if k >= id { id := k + 1; }
      left := left - {k};
    }
    assert n >= 1 ==> n in table;
  }

  class Savefile {
    var cleared: set<int>
    var unconfirmed: seq<Outgoing>
    var received: set<Item>
    var sent: map<int, NetworkItem>  // by item_index
    ghost var origins: seq<Origin>

    ghost predicate Valid()
      reads this
    {
      Dense(sent, |origins|)
    }

    ghost function SentLog(): (log: seq<NetworkItem>)
      requires Valid()
      reads this
    {
      RowsInOrder(sent, |origins|)
    }

    /** A new savefile holding the precollected items. */
    constructor (precollected: seq<int>)
      ensures Valid() && cleared == {} && unconfirmed == [] && received == {}
      ensures SentLog() == Initial(precollected).log && origins == Initial(precollected).origins
    {
      cleared, unconfirmed, received := {}, [], {};
      sent, origins := map[], [];
      new;
      var items := [];
      for i := 0 to |precollected|
        invariant items == Initial(precollected).log[..i]
        modifies {}
      {
        items := items + [NetworkItem(precollected[i], SERVER_LOCATION, SERVER_SLOT, 0)];
      }
      var _ := AddSentItems(items, Initial(precollected).origins);
      assert SentLog() == [] + items;
    }

    method IsLocationCleared(loc: int) returns (r: bool)
      ensures r == (loc in cleared)
    {
      r := loc in cleared;
    }

    method HasReceivedItem(item: Item) returns (r: bool)
      ensures r == (item in received)
    {
      r := item in received;
    }

    method ClearLocations(ids: seq<int>) returns (ok: bool)
      modifies this`cleared
      ensures ok == (NoRepeats(ids) && AllNew(ids, old(cleared)))
      ensures cleared == if ok then old(cleared) + Elements(ids) else old(cleared)
    {
      var work := cleared;
      for i := 0 to |ids|
        invariant work == cleared + Elements(ids[..i])
        invariant NoRepeats(ids[..i]) && AllNew(ids[..i], cleared)
      {
        assert ids[..i + 1] == ids[..i] + [ids[i]];
        assert ids[i] in ids;
        if ids[i] in work {
          RepeatAt(ids, i, cleared);
          return false;
        }
        work := work + {ids[i]};
      }
      assert ids[..|ids|] == ids;
      cleared := work;
      ok := true;
    }

    /** Appends to the log; the index of the first new item, or -1 without items. */
    method AddSentItems(items: seq<NetworkItem>, ghost why: seq<Origin>) returns (index: int)
      requires Valid() && |why| == |items|
      modifies this`sent, this`origins
      ensures Valid() && SentLog() == old(SentLog()) + items && origins == old(origins) + why
      ensures index == if items == [] then -1 else |old(SentLog())|
    {
      index := -1;
      var work := sent;
      ghost var n := |origins|;
      for i := 0 to |items|
        modifies {}
        invariant Dense(work, n + i)
        invariant RowsInOrder(work, n + i) == SentLog() + items[..i]
        invariant index == if i == 0 then -1 else n
      {
        var id := NextRowID(work, n + i);
        ghost var before := RowsInOrder(work, n + i);
        work := work[id := items[i]];
        assert RowsInOrder(work, n + i + 1) == before + [items[i]];
        assert items[..i + 1] == items[..i] + [items[i]];
        if index == -1 { index := id - 1; }
      }
      assert items[..|items|] == items;
      sent := work;
      origins := origins + why;
    }

    /** The whole log, ordered by item_index. */
    method GetSentItems() returns (items: seq<NetworkItem>)
      requires Valid()
      ensures items == SentLog()
    {
      items := [];
      var next := NextRowID(sent, |origins|);
      for id := 1 to next
        invariant items == SentLog()[..id - 1]
      {
        assert sent[id] == SentLog()[id - 1];
        items := items + [sent[id]];
      }
    }

    method AddUnconfirmedItems(rows: seq<Outgoing>) returns (ok: bool)
      modifies this`unconfirmed
      ensures ok == (NoRepeats(rows) && Disjoint(rows, old(unconfirmed)))
      ensures unconfirmed == if ok then old(unconfirmed) + rows else old(unconfirmed)
    {
      var work := unconfirmed;
      for i := 0 to |rows|
        invariant work == unconfirmed + rows[..i]
        invariant NoRepeats(rows[..i]) && Disjoint(rows[..i], unconfirmed)
      {
        assert rows[..i + 1] == rows[..i] + [rows[i]];
        assert rows[i] in rows;
        if rows[i] in work {
          RepeatAt(rows, i, set r | r in unconfirmed);
          return false;
        }
        work := work + [rows[i]];
      }
      assert rows[..|rows|] == rows;
      unconfirmed := work;
      ok := true;
    }

    method ConfirmItem(row: Outgoing) returns (confirmed: bool)
      modifies this`unconfirmed
      ensures unconfirmed == Without(old(unconfirmed), row)
      ensures confirmed == (row in old(unconfirmed))
    {
      confirmed := row in unconfirmed;
      unconfirmed := Without(unconfirmed, row);
    }

    method AddReceivedItem(item: Item) returns (ok: bool)
      modifies this`received
      ensures ok == (item !in old(received))
      ensures received == old(received) + {item}
    {
      ok := item !in received;
      received := received + {item};
    }
  }
}
