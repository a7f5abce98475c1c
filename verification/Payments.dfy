/** The payments table: rows under generated ids, with a unique index on (type, reference). */
module Payments {
  import opened Wrappers

  datatype PaymentType = BTC_LN | BTC_ONCHAIN

  datatype Direction = RECEIVED | SENT | FORWARDED

  datatype Status = INIT | PENDING | PAID | FAILED

  datatype RowKey = RowKey(ptype: PaymentType, reference: string)

  /** The columns the modelled code writes. On-chain rows have no status. */
  datatype Row = Row(
    ptype: PaymentType,
    direction: Direction,
    reference: string,
    status: Option<Status>,
    confidenceBlocks: int,
    amountRequestedMsat: int,
    amountSentMsat: int,
    amountPaidMsat: int,
    feesPaidMsat: int,
    preimage: Option<string>,
    txPayload: Option<string>)
  {
    function Key(): RowKey { RowKey(ptype, reference) }
  }

  /** A payment as `new Payment()` leaves it, once its type, direction and reference are set. */
  function BlankRow(ptype: PaymentType, direction: Direction, reference: string): Row {
    Row(ptype, direction, reference, None, 0, 0, 0, 0, 0, None, None)
  }

  datatype Table = Table(rows: map<nat, Row>, nextId: nat)

  const EMPTY := Table(map[], 0)

  /** What the unique index and the generated ids guarantee. */
  ghost predicate WellFormed(t: Table) {
    && (forall i :: i in t.rows ==> i < t.nextId)
    && (forall i, j :: i in t.rows && j in t.rows && t.rows[i].Key() == t.rows[j].Key() ==> i == j)
  }

  // ---- reading

  /** The ids a query by reference and type selects; the direction is one more condition when given. */
  function Query(t: Table, reference: string, ptype: PaymentType, direction: Option<Direction>): set<nat> {
    set i | i in t.rows && t.rows[i].Key() == RowKey(ptype, reference)
            && (direction == None || direction == Some(t.rows[i].direction))
  }

  /** Neither lookup can select two rows, so `unique()` never throws. */
  lemma QueryIsUnique(t: Table, reference: string, ptype: PaymentType, direction: Option<Direction>)
    requires WellFormed(t)
    ensures |Query(t, reference, ptype, direction)| <= 1
  {
    var ids := Query(t, reference, ptype, direction);
    if ids != {} {
      var i :| i in ids;
      assert ids == {i};
    }
  }

  /** The rows are exactly the entries of the map: the table seen through its unique index. */
  ghost predicate Lists(t: Table, book: map<RowKey, Row>) {
    && (forall i :: i in t.rows ==> t.rows[i].Key() in book && book[t.rows[i].Key()] == t.rows[i])
    && (forall k :: k in book ==> HasKey(t, k))
  }

  ghost predicate HasKey(t: Table, k: RowKey) {
    exists i :: i in t.rows && t.rows[i].Key() == k
  }

  // ---- writing

  /** INSERT OR REPLACE: a row with the same id or the same unique key gives way; no id means a generated one. */
  function InsertOrReplace(t: Table, id: Option<nat>, r: Row): Table {
    var k := if id.Some? then id.value else t.nextId;
    Table(
      (map i | i in t.rows && i != k && t.rows[i].Key() != r.Key() :: t.rows[i])[k := r],
      if k < t.nextId then t.nextId else k + 1)
  }

  lemma InsertKeepsWellFormed(t: Table, id: Option<nat>, r: Row)
    requires WellFormed(t)
    ensures WellFormed(InsertOrReplace(t, id, r))
  {
  }

  /** A row stored under a new id takes the place of whatever row had its key: this is what a direction-qualified
      lookup that misses relies on. A row written back under its own id, with its key untouched, changes alone. */
  lemma StoreLists(t: Table, book: map<RowKey, Row>, id: Option<nat>, r: Row)
    requires WellFormed(t) && Lists(t, book)
    requires id.Some? ==> id.value in t.rows && t.rows[id.value].Key() == r.Key()
    ensures WellFormed(InsertOrReplace(t, id, r)) && Lists(InsertOrReplace(t, id, r), book[r.Key() := r])
  {
    InsertKeepsWellFormed(t, id, r);
    StoredRowsAreListed(t, book, id, r);
    ListedKeysAreStored(t, book, id, r);
  }

  lemma StoredRowsAreListed(t: Table, book: map<RowKey, Row>, id: Option<nat>, r: Row)
    requires WellFormed(t) && Lists(t, book)
    ensures var u, after := InsertOrReplace(t, id, r), book[r.Key() := r];
            forall i :: i in u.rows ==> u.rows[i].Key() in after && after[u.rows[i].Key()] == u.rows[i]
  {
    hide WellFormed;
  }

  lemma ListedKeysAreStored(t: Table, book: map<RowKey, Row>, id: Option<nat>, r: Row)
    requires WellFormed(t) && Lists(t, book)
    requires id.Some? ==> id.value in t.rows && t.rows[id.value].Key() == r.Key()
    ensures forall key :: key in book[r.Key() := r] ==> HasKey(InsertOrReplace(t, id, r), key)
  {
    var k := if id.Some? then id.value else t.nextId;
    var u := InsertOrReplace(t, id, r);
    assert u.rows[k].Key() == r.Key();
    forall key | key in book && key != r.Key() ensures HasKey(u, key) {
      assert HasKey(t, key);
      var i :| i in t.rows && t.rows[i].Key() == key;
      assert i != k;
      assert i in u.rows && u.rows[i].Key() == key;
    }
  }

  /** UPDATE by id. */
  function Update(t: Table, i: nat, r: Row): Table {
    if i in t.rows then t.(rows := t.rows[i := r]) else t
  }

  lemma UpdateLists(t: Table, book: map<RowKey, Row>, i: nat, r: Row)
    requires WellFormed(t) && Lists(t, book)
    requires i in t.rows && t.rows[i].Key() == r.Key()
    ensures WellFormed(Update(t, i, r)) && Lists(Update(t, i, r), book[r.Key() := r])
  {
    assert Update(t, i, r).rows == InsertOrReplace(t, Some(i), r).rows;
    StoreLists(t, book, Some(i), r);
  }

  predicate IsInitLightning(r: Row) { r.ptype == BTC_LN && r.status == Some(INIT) }

  predicate IsZeroConf(r: Row) { r.ptype == BTC_ONCHAIN && r.confidenceBlocks == 0 }

  predicate IsOnchain(r: Row) { r.ptype == BTC_ONCHAIN }

  /** DELETE WHERE. */
  function DeleteWhere(t: Table, p: Row -> bool): Table {
    t.(rows := map i | i in t.rows && !p(t.rows[i]) :: t.rows[i])
  }

  lemma DeleteLists(t: Table, book: map<RowKey, Row>, p: Row -> bool)
    requires WellFormed(t) && Lists(t, book)
    ensures WellFormed(DeleteWhere(t, p))
    ensures Lists(DeleteWhere(t, p), map k | k in book && !p(book[k]) :: book[k])
  {
    var u := DeleteWhere(t, p);
    forall k | k in book && !p(book[k]) ensures HasKey(u, k) {
      assert HasKey(t, k);
      var i :| i in t.rows && t.rows[i].Key() == k;
      assert i in u.rows && u.rows[i].Key() == k;
    }
  }
}
