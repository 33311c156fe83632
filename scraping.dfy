/**
 * What the three store scrapers (the three ScraperService.kt files under service/stores) share:
 * HTTP answers taken as inputs, and the catalogue replacement they perform
 * on the product table, one category batch after another with each
 * insert's result ignored.
 */
module Scraping {
  import opened Results
  import opened Model
  import opened ProductStorage
  import opened ProductsRepositories

  /**
   * One HTTP GET as a scraper sees it: the request raises, or it answers
   * with a status and a body that parses into the expected shape (`Some`) or
   * does not (`None`, which makes the JSON or HTML accessors raise).
   */
  datatype Response<T> = Raises | Responds(status: int, body: Option<T>)

  /** The table after the batches of a pass, inserted in order, each insert's result ignored. */
  function ApplyBatches(rows: map<Key, Row>, batches: seq<seq<Product>>): map<Key, Row>
    decreases |batches|
  {
    if batches == [] then rows
    else AfterInsert(ApplyBatches(rows, batches[..|batches| - 1]), batches[|batches| - 1])
  }

  /** The batches read before the first category whose page raised (`None`). */
  function ReadPrefix(pages: seq<Option<seq<Product>>>): (r: seq<seq<Product>>)
    ensures |r| <= |pages|
    ensures forall i :: 0 <= i < |r| ==> pages[i] == Some(r[i])
    decreases |pages|
  {
    if pages == [] || pages[0].None? then [] else [pages[0].value] + ReadPrefix(pages[1..])
  }

  predicate AllRead(pages: seq<Option<seq<Product>>>) {
    forall j :: 0 <= j < |pages| ==> pages[j].Some?
  }

  /** `p`, stored under `k`, has the fields of a product of the batches whose key is `k`. */
  predicate FromBatches(p: Product, k: Key, batches: seq<seq<Product>>) {
    exists i, j :: 0 <= i < |batches| && 0 <= j < |batches[i]| && SameFields(p, batches[i][j]) && batches[i][j].Key() == k
  }

  /** No key of `products` is taken in `rows`, and no two of them share a key. */
  predicate Fits(rows: map<Key, Row>, products: seq<Product>) {
    (forall i :: 0 <= i < |products| ==> products[i].Key() !in rows) &&
    (forall i, j :: 0 <= i < j < |products| ==> products[i].Key() != products[j].Key())
  }

  /** No product of the batches has a key taken in `rows`. */
  predicate FreshFor(rows: map<Key, Row>, batches: seq<seq<Product>>) {
    forall i, j :: 0 <= i < |batches| && 0 <= j < |batches[i]| ==> batches[i][j].Key() !in rows
  }

  /** No two products of the batches, in the same batch or in two of them, share a key. */
  predicate DistinctKeys(batches: seq<seq<Product>>) {
    forall i1, j1, i2, j2 ::
      (0 <= i1 < |batches| && 0 <= j1 < |batches[i1]| && 0 <= i2 < |batches| && 0 <= j2 < |batches[i2]| &&
       (i1 != i2 || j1 != j2)) ==> batches[i1][j1].Key() != batches[i2][j2].Key()
  }

  /** Every product of the batches is stored in `m` under its key, with all its fields. */
  predicate AllStored(m: map<Key, Row>, batches: seq<seq<Product>>) {
    forall i, j :: 0 <= i < |batches| && 0 <= j < |batches[i]| ==>
      batches[i][j].Key() in m && SameFields(m[batches[i][j].Key()], batches[i][j])
  }

  /** Every product of every batch belongs to `storeId`. */
  predicate AllOfStore(batches: seq<seq<Product>>, storeId: int) {
    forall i, j :: 0 <= i < |batches| && 0 <= j < |batches[i]| ==> batches[i][j].storeId == storeId
  }

  lemma {:induction false} ReadPrefixExtend(pages: seq<Option<seq<Product>>>, k: nat)
    requires k < |pages|
    requires forall j :: 0 <= j <= k ==> pages[j].Some?
    ensures ReadPrefix(pages[..k + 1]) == ReadPrefix(pages[..k]) + [pages[k].value]
  {
    if k > 0 {
      ReadPrefixExtend(pages[1..], k - 1);
      assert pages[..k + 1][1..] == pages[1..][..k];
      assert pages[..k][1..] == pages[1..][..k - 1];
    }
  }

  lemma {:induction false} ReadPrefixStops(pages: seq<Option<seq<Product>>>, k: nat)
    requires k < |pages|
    requires forall j :: 0 <= j < k ==> pages[j].Some?
    requires pages[k].None?
    ensures ReadPrefix(pages) == ReadPrefix(pages[..k])
  {
    if k > 0 {
      ReadPrefixStops(pages[1..], k - 1);
      assert pages[..k][1..] == pages[1..][..k - 1];
    }
  }

  /** Reading one more page applies one more batch. */
  lemma ApplyReadPrefixExtend(rows: map<Key, Row>, pages: seq<Option<seq<Product>>>, k: nat)
    requires k < |pages|
    requires forall j :: 0 <= j <= k ==> pages[j].Some?
    ensures ApplyBatches(rows, ReadPrefix(pages[..k + 1])) ==
              AfterInsert(ApplyBatches(rows, ReadPrefix(pages[..k])), pages[k].value)
  {
    ReadPrefixExtend(pages, k);
    ghost var done := ReadPrefix(pages[..k + 1]);
    assert done[..|done| - 1] == ReadPrefix(pages[..k]);
  }

  /** With every page read, the pass inserts one batch per category. */
  lemma {:induction false} ReadPrefixAll(pages: seq<Option<seq<Product>>>)
    requires AllRead(pages)
    ensures |ReadPrefix(pages)| == |pages|
    ensures forall j :: 0 <= j < |pages| ==> ReadPrefix(pages)[j] == pages[j].value
  {
    if pages != [] {
      ReadPrefixAll(pages[1..]);
    }
  }

  /**
   * An insert whose result is ignored: when the batch `Fits`, every product
   * is stored under its key with all its fields, and only those keys are
   * added; otherwise the constraint violation leaves the table as it was.
   * The rows already there are never changed.
   */
  lemma AfterInsertSpec(rows: map<Key, Row>, products: seq<Product>)
    ensures Fits(rows, products) ==>
              forall i :: 0 <= i < |products| ==>
                products[i].Key() in AfterInsert(rows, products) &&
                SameFields(AfterInsert(rows, products)[products[i].Key()], products[i])
    ensures !Fits(rows, products) ==> AfterInsert(rows, products) == rows
    ensures forall k :: k in AfterInsert(rows, products) ==>
              (k in rows && AfterInsert(rows, products)[k] == rows[k]) ||
              exists j :: 0 <= j < |products| && SameFields(AfterInsert(rows, products)[k], products[j]) &&
                          products[j].Key() == k
    ensures forall k :: k in rows ==> k in AfterInsert(rows, products) && AfterInsert(rows, products)[k] == rows[k]
  {
    var rs := ToRows(products);
    InsertRowsSpec(rows, rs);
    assert Insertable(rows, rs) <==> Fits(rows, products);
    var m := AfterInsert(rows, products);
    forall k | k in m && !(k in rows && m[k] == rows[k])
      ensures exists j :: 0 <= j < |products| && SameFields(m[k], products[j]) && products[j].Key() == k
    {
      var j :| 0 <= j < |rs| && rs[j].Key() == k;
      assert m[k] == rs[j];
      assert SameFields(m[k], products[j]) && products[j].Key() == k;
    }
    if Fits(rows, products) {
      forall i | 0 <= i < |products|
        ensures products[i].Key() in m && SameFields(m[products[i].Key()], products[i])
      {
        assert m[rs[i].Key()] == rs[i];
      }
    }
  }

  /**
   * A pass never touches a row of another store, and every row it adds
   * carries the fields and the key of a product it read.  Conversely, when
   * no product of the pass has a key already taken and no two share one,
   * every product read is stored.
   */
  lemma ApplyBatchesSpec(rows: map<Key, Row>, batches: seq<seq<Product>>, storeId: int)
    requires AllOfStore(batches, storeId)
    ensures forall k: Key :: k.1 != storeId ==>
              (k in ApplyBatches(rows, batches) <==> k in rows) &&
              (k in rows ==> ApplyBatches(rows, batches)[k] == rows[k])
    ensures forall k :: k in ApplyBatches(rows, batches) ==>
              (k in rows && ApplyBatches(rows, batches)[k] == rows[k]) || FromBatches(ApplyBatches(rows, batches)[k], k, batches)
    ensures FreshFor(rows, batches) && DistinctKeys(batches) ==> AllStored(ApplyBatches(rows, batches), batches)
  {
    ApplyBatchesFromRead(rows, batches);
    ApplyBatchesKeepsOthers(rows, batches, storeId);
    if FreshFor(rows, batches) && DistinctKeys(batches) {
      ApplyBatchesStoresAll(rows, batches);
    }
  }

  /** Every row a pass adds or changes carries the fields and the key of a product it read. */
  lemma {:induction false} ApplyBatchesFromRead(rows: map<Key, Row>, batches: seq<seq<Product>>)
    ensures forall k :: k in ApplyBatches(rows, batches) ==>
              (k in rows && ApplyBatches(rows, batches)[k] == rows[k]) || FromBatches(ApplyBatches(rows, batches)[k], k, batches)
    decreases |batches|
  {
    if batches != [] {
      var n := |batches| - 1;
      var front := batches[..n];
      var last := batches[n];
      ApplyBatchesFromRead(rows, front);
      var mid := ApplyBatches(rows, front);
      AfterInsertSpec(mid, last);
      var m := ApplyBatches(rows, batches);
      assert m == AfterInsert(mid, last);
      forall k | k in m ensures (k in rows && m[k] == rows[k]) || FromBatches(m[k], k, batches) {
        if !(k in mid && m[k] == mid[k]) {
          var j :| 0 <= j < |last| && SameFields(m[k], last[j]) && last[j].Key() == k;
          assert SameFields(m[k], batches[n][j]) && batches[n][j].Key() == k;
        } else if !(k in rows && mid[k] == rows[k]) {
          var i, j :| 0 <= i < |front| && 0 <= j < |front[i]| && SameFields(mid[k], front[i][j]) && front[i][j].Key() == k;
          assert front[i] == batches[i];
        }
      }
    }
  }

  /** A pass of one store never touches a row of another. */
  lemma {:induction false} ApplyBatchesKeepsOthers(rows: map<Key, Row>, batches: seq<seq<Product>>, storeId: int)
    requires AllOfStore(batches, storeId)
    ensures forall k: Key :: k.1 != storeId ==>
              (k in ApplyBatches(rows, batches) <==> k in rows) &&
              (k in rows ==> ApplyBatches(rows, batches)[k] == rows[k])
    decreases |batches|
  {
    if batches != [] {
      var n := |batches| - 1;
      var front := batches[..n];
      var last := batches[n];
      assert AllOfStore(front, storeId) by {
        forall i, j | 0 <= i < |front| && 0 <= j < |front[i]| ensures front[i][j].storeId == storeId {
          assert front[i] == batches[i];
        }
      }
      ApplyBatchesKeepsOthers(rows, front, storeId);
      var mid := ApplyBatches(rows, front);
      AfterInsertSpec(mid, last);
      var m := ApplyBatches(rows, batches);
      assert m == AfterInsert(mid, last);
      forall k: Key | k.1 != storeId
        ensures (k in m <==> k in rows) && (k in rows ==> m[k] == rows[k])
      {
      }
    }
  }

  /** With no key taken beforehand and none shared, every product a pass read is stored. */
  lemma {:induction false} ApplyBatchesStoresAll(rows: map<Key, Row>, batches: seq<seq<Product>>)
    requires FreshFor(rows, batches) && DistinctKeys(batches)
    ensures AllStored(ApplyBatches(rows, batches), batches)
    decreases |batches|
  {
    if batches != [] {
      var n := |batches| - 1;
      var front := batches[..n];
      var last := batches[n];
      FreshAndDistinctFront(rows, batches);
      ApplyBatchesStoresAll(rows, front);
      ApplyBatchesFromRead(rows, front);
      var mid := ApplyBatches(rows, front);
      AfterInsertSpec(mid, last);
      var m := ApplyBatches(rows, batches);
      assert m == AfterInsert(mid, last);
      LastBatchFits(rows, mid, batches);
      forall i, j | 0 <= i < |batches| && 0 <= j < |batches[i]|
        ensures batches[i][j].Key() in m && SameFields(m[batches[i][j].Key()], batches[i][j])
      {
        if i < n {
          assert batches[i][j] == front[i][j];
        }
      }
    }
  }

  /** Freshness and distinct keys carry over to the batches before the last. */
  lemma FreshAndDistinctFront(rows: map<Key, Row>, batches: seq<seq<Product>>)
    requires batches != []
    requires FreshFor(rows, batches) && DistinctKeys(batches)
    ensures FreshFor(rows, batches[..|batches| - 1]) && DistinctKeys(batches[..|batches| - 1])
  {
    var front := batches[..|batches| - 1];
    assert forall i :: 0 <= i < |front| ==> front[i] == batches[i];
  }

  /**
   * Before the last batch is inserted, the table holds only the rows it
   * started with and rows of earlier batches; so, with fresh and distinct
   * keys, the last batch fits.
   */
  lemma LastBatchFits(rows: map<Key, Row>, mid: map<Key, Row>, batches: seq<seq<Product>>)
    requires batches != []
    requires FreshFor(rows, batches) && DistinctKeys(batches)
    requires forall k :: k in mid ==> (k in rows && mid[k] == rows[k]) || FromBatches(mid[k], k, batches[..|batches| - 1])
    ensures Fits(mid, batches[|batches| - 1])
  {
    var n := |batches| - 1;
    var last := batches[n];
    forall j | 0 <= j < |last| ensures last[j].Key() !in mid {
      assert batches[n][j] == last[j];
    }
  }
}
