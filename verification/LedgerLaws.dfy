/** What the backup checker's acceptance says about the ledger it was shown. */
module LedgerLaws {
  import opened Common
  import opened Inventory
  import opened InventoryBooks
  import opened LedgerCheck
  import Rows
  import Sorting

  /** The rows of one stock, in the order of time and id. */
  function RowsOf(doc: Document, key: StockKey): seq<Movement> {
    Sorting.Sort(Of(doc.movements, key), Chronological)
  }

  /** Every number fits its column. */
  predicate Fits(doc: Document) {
    && (forall i :: 0 <= i < |doc.stocks| ==> doc.stocks[i].stock.initial <= MAX_INT && doc.stocks[i].stock.quantity <= MAX_INT)
    && (forall i :: 0 <= i < |doc.movements| ==> doc.movements[i].before <= MAX_INT && doc.movements[i].after <= MAX_INT)
  }

  lemma ChronologicalIsOrder()
    ensures Sorting.IsOrder(Chronological)
  {
  }

  lemma RowsAreMembers(doc: Document, key: StockKey)
    ensures multiset(RowsOf(doc, key)) == multiset(Of(doc.movements, key))
    ensures forall m :: m in RowsOf(doc, key) <==> m in doc.movements && m.key == key
  {
    ChronologicalIsOrder();
    Sorting.SortSorts(Of(doc.movements, key), Chronological);
    Rows.Members(KeyOf, doc.movements, key);
    forall m ensures m in RowsOf(doc, key) <==> m in Of(doc.movements, key) {
      assert m in RowsOf(doc, key) <==> m in multiset(RowsOf(doc, key));
    }
  }

  lemma ShuffledApart(a: seq<Movement>, b: seq<Movement>)
    requires RowsApart(a) && multiset(a) == multiset(b)
    ensures RowsApart(b)
  {
    forall i, j | 0 <= i < j < |a| ensures a[i] != a[j] { assert a[i].id != a[j].id; }
    Sorting.NoDuplicates(a, b);
    forall i, j | 0 <= i < j < |b| ensures b[i].id != b[j].id && (b[i].reverses.Some? ==> b[i].reverses != b[j].reverses) {
      assert b[i] in multiset(a) && b[j] in multiset(a);
      var x :| 0 <= x < |a| && a[x] == b[i];
      var y :| 0 <= y < |a| && a[y] == b[j];
      assert x != y;
    }
  }

  lemma RowsStayApart(doc: Document, key: StockKey)
    requires AllApart(doc.movements)
    ensures RowsApart(RowsOf(doc, key))
  {
    OfApart(doc.movements, key);
    RowsAreMembers(doc, key);
    ShuffledApart(Of(doc.movements, key), RowsOf(doc, key));
  }

  lemma ApartIsAccepted(ms: seq<Movement>)
    ensures AllApart(ms) <==> IdsAccepted(ms) && ReversalsAccepted(ms)
  {
    if AllApart(ms) {
      forall i, j | 0 <= i < j < |ms| ensures ms[i].id != ms[j].id && ms[i].idem != ms[j].idem && (ms[i].reverses.Some? ==> ms[i].reverses != ms[j].reverses) {
        assert Apart(ms[i], ms[j]);
      }
    }
  }

  // ---- From acceptance to the books ----

  lemma AcceptedRow(doc: Document, m: Movement)
    requires Accepted(doc) && Fits(doc) && m in doc.movements
    ensures MovementRowOk(m) && HasStock(doc, m.key)
    ensures m.reverses.Some? ==> exists s :: s in doc.movements && Matches(m, s)
  {
    var i :| 0 <= i < |doc.movements| && doc.movements[i] == m;
    assert MovementAccepted(doc, doc.movements[i]);
    if m.reverses.Some? {
      var j :| 0 <= j < |doc.movements| && Matches(m, doc.movements[j]);
      assert doc.movements[j] in doc.movements;
    }
  }

  lemma BackedByMatches(rows: seq<Movement>, i: nat, s: Movement)
    requires i < |rows| && StepAccepted(rows, i) && RowsApart(rows) && s in rows && Matches(rows[i], s)
    ensures exists k :: 0 <= k < i && Undoes(rows[i], rows[k])
  {
    var k := IndexOf(rows, s.id);
    var x :| 0 <= x < |rows| && rows[x] == s;
    assert rows[k].id == rows[x].id;
    assert Undoes(rows[i], rows[k]);
  }

  lemma AcceptedChain(stock: Stock, rows: seq<Movement>)
    requires stock.tracked && ReplayAccepted(stock, rows) && forall m :: m in rows ==> MovementRowOk(m)
    ensures Chained(rows)
  {
    forall k | 0 <= k < |rows|
      ensures MovementRowOk(rows[k]) && rows[k].before == (if k == 0 then 0 else rows[k - 1].after) && (rows[k].kind == INITIALIZATION <==> k == 0)
    {
      assert rows[k] in rows && StepAccepted(rows, k);
    }
  }

  lemma AcceptedBacking(stock: Stock, rows: seq<Movement>)
    requires stock.tracked && ReplayAccepted(stock, rows) && RowsApart(rows)
    requires forall m :: m in rows && m.reverses.Some? ==> exists s :: s in rows && Matches(m, s)
    ensures Backed(rows)
  {
    forall k | 0 <= k < |rows| && rows[k].reverses.Some? ensures exists j :: 0 <= j < k && Undoes(rows[k], rows[j]) {
      assert rows[k] in rows && StepAccepted(rows, k);
      var s :| s in rows && Matches(rows[k], s);
      BackedByMatches(rows, k, s);
    }
  }

  lemma AcceptedAccount(doc: Document, i: nat)
    requires Accepted(doc) && Fits(doc) && i < |doc.stocks| && doc.stocks[i].stock.tracked
    ensures AccountOk(doc.stocks[i].stock, RowsOf(doc, doc.stocks[i].key))
  {
    var stock, rows := doc.stocks[i].stock, RowsOf(doc, doc.stocks[i].key);
    ApartIsAccepted(doc.movements);
    RowsStayApart(doc, doc.stocks[i].key);
    RowsAreMembers(doc, doc.stocks[i].key);
    assert StockFieldsOk(stock) && ReplayAccepted(stock, rows);
    forall m | m in rows
      ensures MovementRowOk(m) && (m.reverses.Some? ==> exists s :: s in rows && Matches(m, s))
    {
      AcceptedRow(doc, m);
      if m.reverses.Some? {
        var s :| s in doc.movements && Matches(m, s);
        assert s in rows;
      }
    }
    AcceptedChain(stock, rows);
    AcceptedBacking(stock, rows);
  }

  // ---- And back ----

  /** The document of sound books: nothing is named twice, every row belongs to a tracked stock, and the
      rows of each form its account. */
  ghost predicate Sound(doc: Document) {
    && (forall i, j :: 0 <= i < j < |doc.stocks| ==> doc.stocks[i].key != doc.stocks[j].key)
    && AllApart(doc.movements)
    && (forall m :: m in doc.movements ==> HasStock(doc, m.key))
    && forall i :: 0 <= i < |doc.stocks| ==>
         if doc.stocks[i].stock.tracked then AccountOk(doc.stocks[i].stock, RowsOf(doc, doc.stocks[i].key))
         else doc.stocks[i].stock.initial == 0 && doc.stocks[i].stock.quantity == 0
  }

  lemma SoundRow(doc: Document, m: Movement)
    requires Sound(doc) && m in doc.movements
    ensures MovementAccepted(doc, m)
  {
    var i :| 0 <= i < |doc.stocks| && doc.stocks[i].key == m.key && doc.stocks[i].stock.tracked;
    var rows := RowsOf(doc, m.key);
    RowsAreMembers(doc, m.key);
    forall k | 0 <= k < |rows| ensures rows[k].key == m.key { assert rows[k] in rows; }
    var sale := RowReversesEarlierSale(doc.stocks[i].stock, rows, m.key, m);
    if sale.Some? {
      var j :| 0 <= j < |doc.movements| && doc.movements[j] == sale.value;
      assert Matches(m, doc.movements[j]);
    }
  }

  lemma UntrackedHasNoRows(doc: Document, i: nat)
    requires Sound(doc) && i < |doc.stocks| && !doc.stocks[i].stock.tracked
    ensures forall m :: m in doc.movements ==> m.key != doc.stocks[i].key
  {
    forall m | m in doc.movements ensures m.key != doc.stocks[i].key {
      var j :| 0 <= j < |doc.stocks| && doc.stocks[j].key == m.key && doc.stocks[j].stock.tracked;
      if j < i { assert doc.stocks[j].key != doc.stocks[i].key; } else { assert doc.stocks[i].key != doc.stocks[j].key; }
    }
  }

  lemma FirstIsMember(rows: seq<Movement>)
    ensures rows != [] ==> exists m :: m in rows
  {
    if rows != [] { assert rows[0] in rows; }
  }

  lemma SoundReplay(doc: Document, i: nat)
    requires Sound(doc) && i < |doc.stocks|
    ensures ReplayAccepted(doc.stocks[i].stock, RowsOf(doc, doc.stocks[i].key)) && StockFieldsOk(doc.stocks[i].stock)
  {
    var rows := RowsOf(doc, doc.stocks[i].key);
    if doc.stocks[i].stock.tracked {
      RowsStayApart(doc, doc.stocks[i].key);
      AccountReplays(doc.stocks[i].stock, rows);
    } else {
      UntrackedHasNoRows(doc, i);
      RowsAreMembers(doc, doc.stocks[i].key);
      FirstIsMember(rows);
    }
  }

  /** The checker, which knows nothing of how rows come about, accepts exactly the documents of sound books. */
  lemma AcceptedExactlySound(doc: Document)
    requires Fits(doc)
    ensures Accepted(doc) <==> Sound(doc)
  {
    ApartIsAccepted(doc.movements);
    if Accepted(doc) {
      forall m | m in doc.movements ensures HasStock(doc, m.key) { AcceptedRow(doc, m); }
      forall i | 0 <= i < |doc.stocks| && doc.stocks[i].stock.tracked ensures AccountOk(doc.stocks[i].stock, RowsOf(doc, doc.stocks[i].key)) {
        AcceptedAccount(doc, i);
      }
      forall i | 0 <= i < |doc.stocks| ensures StockFieldsOk(doc.stocks[i].stock) { }
    }
    if Sound(doc) {
      forall i | 0 <= i < |doc.stocks|
        ensures StockFieldsOk(doc.stocks[i].stock) && ReplayAccepted(doc.stocks[i].stock, Sorting.Sort(Of(doc.movements, doc.stocks[i].key), Chronological))
      {
        SoundReplay(doc, i);
      }
      forall i | 0 <= i < |doc.movements| ensures MovementAccepted(doc, doc.movements[i]) { SoundRow(doc, doc.movements[i]); }
    }
  }

  /** So whatever it accepts balances: each tracked stock is what it was opened with, plus corrections, minus the
      sales that were not taken back. */
  lemma AcceptedLedgersBalance(doc: Document, i: nat)
    requires Fits(doc) && Accepted(doc) && i < |doc.stocks| && doc.stocks[i].stock.tracked
    ensures var stock, rows := doc.stocks[i].stock, RowsOf(doc, doc.stocks[i].key);
            0 <= stock.quantity == stock.initial + KindTotal(rows, CORRECTION) - OpenSold(rows, rows)
  {
    AcceptedAccount(doc, i);
    ApartIsAccepted(doc.movements);
    RowsStayApart(doc, doc.stocks[i].key);
    ChainBalances(RowsOf(doc, doc.stocks[i].key));
  }
}
