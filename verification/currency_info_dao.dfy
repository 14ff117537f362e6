/** The local `currencies` table: rows keyed by their primary key `id`,
    written with insert-or-replace and cleared wholesale. The order in which a
    query lists rows is not specified by the store, so the table is a map. */
module Dao {
  import opened Domain
  import opened Entities

  type Rows = map<string, CurrencyInfoEntity>

  /** Every row is stored under its own primary key, so no two rows share an id. */
  ghost predicate KeyedById(rows: Rows) {
    forall id :: id in rows ==> rows[id].id == id
  }

  /** The ids of a batch. */
  function Ids(batch: seq<CurrencyInfoEntity>): (r: set<string>)
    ensures forall i :: 0 <= i < |batch| ==> batch[i].id in r
    ensures forall id :: id in r ==> exists i :: 0 <= i < |batch| && batch[i].id == id
  {
    if batch == [] then {}
    else
      var prefix := batch[..|batch| - 1];
      assert forall i :: 0 <= i < |prefix| ==> prefix[i] == batch[i];
      Ids(prefix) + {batch[|batch| - 1].id}
  }

  /** `@Insert(onConflict = REPLACE)` of a batch, row after row: the table
      gains the batch's ids, rows whose id is not in the batch are untouched,
      and rows stay keyed by their id. */
  function Upsert(rows: Rows, batch: seq<CurrencyInfoEntity>): (r: Rows)
    ensures r.Keys == rows.Keys + Ids(batch)
    ensures forall id :: id in rows && id !in Ids(batch) ==> r[id] == rows[id]
    ensures KeyedById(rows) ==> KeyedById(r)
  {
    if batch == [] then rows
    else Upsert(rows, batch[..|batch| - 1])[batch[|batch| - 1].id := batch[|batch| - 1]]
  }

  /** For an id that occurs in a batch, the stored row is the batch's last row
      with that id: later rows replace earlier ones. */
  lemma {:induction false} UpsertLastWins(rows: Rows, batch: seq<CurrencyInfoEntity>, i: nat)
    requires i < |batch|
    requires forall j :: i < j < |batch| ==> batch[j].id != batch[i].id
    ensures Upsert(rows, batch)[batch[i].id] == batch[i]
  {
    if i < |batch| - 1 {
      var prefix := batch[..|batch| - 1];
      UpsertLastWins(rows, prefix, i);
    }
  }

  /** Inserting a row whose id is already stored replaces that row and keeps
      the row count. */
  lemma ReplaceKeepsCount(rows: Rows, e: CurrencyInfoEntity)
    requires e.id in rows
    ensures Upsert(rows, [e])[e.id] == e
    ensures |Upsert(rows, [e])| == |rows|
  {
    assert Upsert(rows, [e]).Keys == rows.Keys;
  }

  /** Inserting rows with distinct new ids adds every one of them; an empty
      batch changes nothing. */
  lemma NewIdsAddAll(rows: Rows, batch: seq<CurrencyInfoEntity>)
    requires forall i :: 0 <= i < |batch| ==> batch[i].id !in rows
    requires forall i, j :: 0 <= i < j < |batch| ==> batch[i].id != batch[j].id
    ensures |Upsert(rows, batch)| == |rows| + |batch|
    ensures forall i :: 0 <= i < |batch| ==> Upsert(rows, batch)[batch[i].id] == batch[i]
    ensures batch == [] ==> Upsert(rows, batch) == rows
  {
    NewIdsGrowCount(rows, batch);
    forall i | 0 <= i < |batch|
      ensures Upsert(rows, batch)[batch[i].id] == batch[i]
    {
      UpsertLastWins(rows, batch, i);
    }
  }

  lemma {:induction false} NewIdsGrowCount(rows: Rows, batch: seq<CurrencyInfoEntity>)
    requires forall i :: 0 <= i < |batch| ==> batch[i].id !in rows
    requires forall i, j :: 0 <= i < j < |batch| ==> batch[i].id != batch[j].id
    ensures |Upsert(rows, batch)| == |rows| + |batch|
  {
    if batch != [] {
      var prefix, last := batch[..|batch| - 1], batch[|batch| - 1];
      NewIdsGrowCount(rows, prefix);
      var p := Upsert(rows, prefix);
      assert last.id !in p.Keys;
      assert Upsert(rows, batch) == p[last.id := last];
    }
  }

  /** A batch upsert overlays the batch's own rows on the store. */
  lemma {:induction false} UpsertIsOverlay(rows: Rows, batch: seq<CurrencyInfoEntity>)
    ensures Upsert(rows, batch) == rows + Upsert(map[], batch)
  {
    if batch != [] {
      var prefix, last := batch[..|batch| - 1], batch[|batch| - 1];
      UpsertIsOverlay(rows, prefix);
      var m := Upsert(map[], prefix);
      assert (rows + m)[last.id := last] == rows + m[last.id := last];
    }
  }

  /** Two inserts of batches with disjoint ids give the same store in either
      order. */
  lemma DisjointInsertsCommute(rows: Rows, a: seq<CurrencyInfoEntity>, b: seq<CurrencyInfoEntity>)
    requires Ids(a) !! Ids(b)
    ensures Upsert(Upsert(rows, a), b) == Upsert(Upsert(rows, b), a)
  {
    UpsertIsOverlay(rows, a);
    UpsertIsOverlay(rows, b);
    UpsertIsOverlay(Upsert(rows, a), b);
    UpsertIsOverlay(Upsert(rows, b), a);
    UpsertKeysOfBatch(a);
    UpsertKeysOfBatch(b);
    DisjointOverlaysCommute(rows, Upsert(map[], a), Upsert(map[], b));
  }

  lemma UpsertKeysOfBatch(batch: seq<CurrencyInfoEntity>)
    ensures Upsert(map[], batch).Keys == Ids(batch)
  {
  }

  lemma DisjointOverlaysCommute(rows: Rows, ma: Rows, mb: Rows)
    requires ma.Keys !! mb.Keys
    ensures rows + ma + mb == rows + mb + ma
  {
    var left, right := rows + ma + mb, rows + mb + ma;
    forall k | k in left.Keys
      ensures left[k] == right[k]
    {
      if k in mb.Keys {
        assert k !in ma.Keys;
      }
    }
  }

  predicate InPartition(e: CurrencyInfoEntity, t: CurrencyType) {
    match t
    case All => true
    case Fiat => e.code.Some?
    case Crypto => e.code.None?
  }

  /** What `getCurrencies`, `getFiatCurrencies` and `getCryptoCurrencies`
      read: the rows of one partition. */
  function Select(rows: Rows, t: CurrencyType): (r: Rows)
    ensures forall id :: id in r <==> id in rows && InPartition(rows[id], t)
    ensures forall id :: id in r ==> r[id] == rows[id]
    ensures KeyedById(rows) ==> KeyedById(r)
  {
    map id | id in rows && InPartition(rows[id], t) :: rows[id]
  }

  /** The fiat query and the crypto query split the table: together they hold
      every row, and no row is in both; the unscoped query is the whole table. */
  lemma PartitionsSplitTable(rows: Rows)
    ensures Select(rows, Fiat).Keys !! Select(rows, Crypto).Keys
    ensures Select(rows, Fiat) + Select(rows, Crypto) == rows
    ensures Select(rows, All) == rows
    ensures forall id :: id in Select(rows, Fiat) ==> Select(rows, Fiat)[id].code.Some?
    ensures forall id :: id in Select(rows, Crypto) ==> Select(rows, Crypto)[id].code.None?
  {
    var f, c := Select(rows, Fiat), Select(rows, Crypto);
    assert (f + c).Keys == rows.Keys;
  }

  /** `es` lists exactly the rows of `rows`, each once, in some order. */
  ghost predicate Lists(rows: Rows, es: seq<CurrencyInfoEntity>) {
    (forall i :: 0 <= i < |es| ==> es[i].id in rows && rows[es[i].id] == es[i])
    && (forall id :: id in rows ==> exists i :: 0 <= i < |es| && es[i].id == id)
    && (forall i, j :: 0 <= i < j < |es| ==> es[i].id != es[j].id)
  }

  /** A listing is empty exactly when the rows it lists are. */
  lemma ListsNothing(rows: Rows, es: seq<CurrencyInfoEntity>)
    requires Lists(rows, es)
    ensures es == [] <==> rows == map[]
  {
    if es != [] {
      assert es[0].id in rows;
    }
    if rows != map[] {
      var id :| id in rows;
      var i :| 0 <= i < |es| && es[i].id == id;
    }
  }

  /** One listing of `rows`: some row, then a listing of the others. Every
      table keyed by id has one, so a store that lists each table it is
      given exists. */
  ghost function SomeListing(rows: Rows): (es: seq<CurrencyInfoEntity>)
    ensures KeyedById(rows) ==> Lists(rows, es)
    decreases |rows|
  {
    if rows == map[] then []
    else
      var id :| id in rows;
      var rest := SomeListing(rows - {id});
      if KeyedById(rows) then
        assert KeyedById(rows - {id});
        ListsOneMore(rows, id, rest);
        [rows[id]] + rest
      else
        [rows[id]] + rest
  }

  lemma ListsOneMore(rows: Rows, id: string, rest: seq<CurrencyInfoEntity>)
    requires KeyedById(rows) && id in rows && Lists(rows - {id}, rest)
    ensures Lists(rows, [rows[id]] + rest)
  {
    var es := [rows[id]] + rest;
    forall i | 0 <= i < |es| ensures es[i].id in rows && rows[es[i].id] == es[i] {
      if i > 0 { assert es[i] == rest[i - 1]; }
    }
    forall k | k in rows ensures exists i :: 0 <= i < |es| && es[i].id == k {
      if k == id {
        assert es[0].id == k;
      } else {
        assert k in rows - {id};
        var i :| 0 <= i < |rest| && rest[i].id == k;
        assert es[i + 1].id == k;
      }
    }
    forall i, j | 0 <= i < j < |es| ensures es[i].id != es[j].id {
      assert es[j] == rest[j - 1];
      if i > 0 { assert es[i] == rest[i - 1]; }
    }
  }

  /** A store order that lists every table keyed by id exists. */
  lemma SomeOrderListsEveryTable()
    ensures var order := (m: Rows) => SomeListing(m);
      forall m :: KeyedById(m) ==> Lists(m, order(m))
  {
    var order := (m: Rows) => SomeListing(m);
    forall m | KeyedById(m) ensures Lists(m, order(m)) {
      assert order(m) == SomeListing(m);
    }
  }

  /** The table behind the Room DAO. */
  class CurrencyInfoDao {
    var rows: Rows

    ghost predicate Valid()
      reads this
    {
      KeyedById(rows)
    }

    constructor()
      ensures Valid() && rows == map[]
    {
      rows := map[];
    }

    /** Insert every row of the batch in order, replacing a stored row with
        the same id. */
    method InsertCurrencies(currencies: seq<CurrencyInfoEntity>)
      requires Valid()
      modifies this
      ensures Valid()
      ensures rows == Upsert(old(rows), currencies)
    {
      for i := 0 to |currencies|
        invariant rows == Upsert(old(rows), currencies[..i])
        invariant Valid()
      {
        assert currencies[..i + 1][..i] == currencies[..i];
        rows := rows[currencies[i].id := currencies[i]];
      }
      assert currencies[..|currencies|] == currencies;
    }

    /** `DELETE FROM currencies`. */
    method ClearCurrencies()
      modifies this
      ensures Valid()
      ensures rows == map[]
    {
      rows := map[];
    }

    /** One snapshot of a query: the rows of partition `t`, each once, in an
        order the store chooses. */
    method GetCurrencies(t: CurrencyType) returns (listing: seq<CurrencyInfoEntity>)
      requires Valid()
      ensures Lists(Select(rows, t), listing)
    {
      var selected := Select(rows, t);
      var left := selected.Keys;
      listing := [];
      while left != {}
        invariant left <= selected.Keys
        invariant forall i :: 0 <= i < |listing| ==>
          listing[i].id in selected && selected[listing[i].id] == listing[i] && listing[i].id !in left
        invariant forall id :: id in selected && id !in left ==> exists i :: 0 <= i < |listing| && listing[i].id == id
        invariant forall i, j :: 0 <= i < j < |listing| ==> listing[i].id != listing[j].id
        decreases left
      {
        var id :| id in left;
        ghost var before := listing;
        listing := listing + [selected[id]];
        left := left - {id};
        forall id' | id' in selected && id' !in left
          ensures exists i :: 0 <= i < |listing| && listing[i].id == id'
        {
          if id' == id {
            assert listing[|before|].id == id';
          } else {
            var i :| 0 <= i < |before| && before[i].id == id';
            assert listing[i].id == id';
          }
        }
      }
    }
  }
}
