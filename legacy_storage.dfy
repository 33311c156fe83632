/**
 * The legacy `com.example.dealdetective` product table
 * (storage/room/Product.kt, storage/room/ProductDao.kt): rows keyed by
 * product name and store id, whose `@Insert` keeps Room's default conflict
 * strategy, ABORT, so inserting a row whose key is taken raises and writes
 * nothing.
 */
module LegacyStorage {
  import opened Results
  import opened Model

  type LegacyKey = (string, int)

  /** storage/room/Product.kt (legacy): no favourite mark, and the json object is always present. */
  datatype LegacyProduct = LegacyProduct(productName: string, storeId: int, originalPrice: Option<real>,
                                         discountedPrice: real, category: string, json: JsonObject)
  {
    function Key(): LegacyKey {
      (productName, storeId)
    }
  }

  /**
   * The table after inserting `ps` one at a time: each insert whose key is
   * taken aborts, and the exception ends the sequence.  The flag tells
   * whether every insert went through.
   */
  function InsertEach(rows: map<LegacyKey, LegacyProduct>, ps: seq<LegacyProduct>): (r: (map<LegacyKey, LegacyProduct>, bool))
    decreases |ps|
  {
    if ps == [] then (rows, true)
    else if ps[0].Key() in rows then (rows, false)
    else InsertEach(rows[ps[0].Key() := ps[0]], ps[1..])
  }

  /**
   * Inserting never removes or rewrites a row, every row added is one of
   * `ps` under its own key, and when every insert went through every product
   * of `ps` has its key in the table.
   */
  lemma {:induction false} InsertEachSpec(rows: map<LegacyKey, LegacyProduct>, ps: seq<LegacyProduct>)
    ensures var (after, ok) := InsertEach(rows, ps);
      (forall k :: k in rows ==> k in after && after[k] == rows[k]) &&
      (forall k :: k in after && k !in rows ==> exists i :: 0 <= i < |ps| && ps[i] == after[k] && ps[i].Key() == k) &&
      (ok ==> forall i :: 0 <= i < |ps| ==> ps[i].Key() in after)
    decreases |ps|
  {
    if ps != [] && ps[0].Key() !in rows {
      var next := rows[ps[0].Key() := ps[0]];
      InsertEachSpec(next, ps[1..]);
      var (after, ok) := InsertEach(rows, ps);
      assert (after, ok) == InsertEach(next, ps[1..]);
      forall k | k in after && k !in rows
        ensures exists i :: 0 <= i < |ps| && ps[i] == after[k] && ps[i].Key() == k
      {
        if k == ps[0].Key() {
          assert after[k] == ps[0];
        } else {
          var i :| 0 <= i < |ps[1..]| && ps[1..][i] == after[k] && ps[1..][i].Key() == k;
          assert ps[i + 1] == after[k];
        }
      }
      if ok {
        forall i | 0 <= i < |ps| ensures ps[i].Key() in after {
          if i > 0 {
            assert ps[1..][i - 1] == ps[i];
          } else {
            assert ps[0].Key() in next;
          }
        }
      }
    }
  }

  /** Inserting `a` and then `b` is inserting `a + b`, unless the inserts of `a` already aborted. */
  lemma {:induction false} InsertEachAppend(rows: map<LegacyKey, LegacyProduct>, a: seq<LegacyProduct>, b: seq<LegacyProduct>)
    ensures InsertEach(rows, a).1 ==> InsertEach(rows, a + b) == InsertEach(InsertEach(rows, a).0, b)
    ensures !InsertEach(rows, a).1 ==> InsertEach(rows, a + b) == InsertEach(rows, a)
    decreases |a|
  {
    if a == [] {
      assert a + b == b;
    } else {
      assert (a + b)[0] == a[0];
      assert (a + b)[1..] == a[1..] + b;
      if a[0].Key() !in rows {
        InsertEachAppend(rows[a[0].Key() := a[0]], a[1..], b);
      }
    }
  }

  /** storage/room/ProductDao.kt (legacy), as the handlers use it. */
  class LegacyProductDao {
    var rows: map<LegacyKey, LegacyProduct>

    /** Each row is stored under its own key. */
    ghost predicate Valid()
      reads this
    {
      forall k :: k in rows ==> rows[k].Key() == k
    }

    constructor ()
      ensures Valid() && rows == map[]
    {
      rows := map[];
    }

    /** `getProductById`: the row with that name and store id, or `None`. */
    function GetProductById(productName: string, storeId: int): (r: Option<LegacyProduct>)
      reads this
      requires Valid()
      ensures r.Some? <==> exists p :: p in rows.Values && p.productName == productName && p.storeId == storeId
      ensures r.Some? ==> r.value.productName == productName && r.value.storeId == storeId
    {
      var k := (productName, storeId);
      if k in rows then Some(rows[k])
      else
        assert forall p :: p in rows.Values ==> p.Key() in rows && rows[p.Key()] == p;
        None
    }

    /** `insertAllProducts` of one product: a taken key aborts and writes nothing. */
    method InsertProduct(p: LegacyProduct) returns (c: Completion<()>)
      requires Valid()
      modifies this`rows
      ensures Valid()
      ensures p.Key() in old(rows) ==> c == Thrown(ConstraintViolation) && rows == old(rows)
      ensures p.Key() !in old(rows) ==> c == Returned(()) && rows == old(rows)[p.Key() := p]
    {
      if p.Key() in rows {
        return Thrown(ConstraintViolation);
      }
      rows := rows[p.Key() := p];
      return Returned(());
    }
  }
}
