/** The product operations of `examples/01-sql-database/src/crud.ts` on top
    of `SqlDb`: building the partial UPDATE statement, interpreting
    `rowsAffected` and `recordset`, and inserting a batch of products inside
    one transaction. */
module SqlCrud {
  import opened Wrappers
  import Text
  import opened SqlDb

  /** `price` is a JavaScript number that is only passed through. */
  datatype Product = Product(id: Option<int>, name: string, price: real, category: string, createdAt: Option<string>)

  /** `Partial<Omit<Product, 'id' | 'createdAt'>>`: `None` is `undefined`. */
  datatype ProductUpdate = ProductUpdate(name: Option<string>, price: Option<real>, category: Option<string>)

  /** A numeric id as a parameter value. */
  function IdValue(id: int): Value {
    Num(id as real)
  }

  /** The `{ name, price, category }` parameters of an INSERT. */
  function ProductInputs(p: Product): Params {
    [("name", Str(p.name)), ("price", Num(p.price)), ("category", Str(p.category))]
  }

  const NameClause := "name = @name"
  const PriceClause := "price = @price"
  const CategoryClause := "category = @category"

  /** The SET clauses `updateProduct` collects (lines 91-105). */
  function UpdateClauses(u: ProductUpdate): seq<string> {
    (if u.name.Some? then [NameClause] else [])
    + (if u.price.Some? then [PriceClause] else [])
    + (if u.category.Some? then [CategoryClause] else [])
  }

  /** The parameter object `updateProduct` builds (lines 92-105). */
  function UpdateParams(id: int, u: ProductUpdate): Params {
    [("id", IdValue(id))]
    + (if u.name.Some? then [("name", Str(u.name.value))] else [])
    + (if u.price.Some? then [("price", Num(u.price.value))] else [])
    + (if u.category.Some? then [("category", Str(u.category.value))] else [])
  }

  /** The statement of lines 109-112. */
  function UpdateStatement(clauses: seq<string>): string {
    "UPDATE Products SET " + Text.Join(clauses, ", ") + " WHERE id = @id"
  }

  /** Position of a clause in the fixed order name, price, category. */
  function Rank(clause: string): int {
    if clause == NameClause then 0 else if clause == PriceClause then 1 else if clause == CategoryClause then 2 else 3
  }

  /** A clause is present exactly when its field is defined — an empty
      string or a zero price counts as defined — and the clauses come in
      the order name, price, category, each at most once. */
  lemma UpdateClausesFollowFields(u: ProductUpdate)
    ensures var c := UpdateClauses(u);
      && (NameClause in c <==> u.name.Some?)
      && (PriceClause in c <==> u.price.Some?)
      && (CategoryClause in c <==> u.category.Some?)
      && (forall a, b | 0 <= a < b < |c| :: Rank(c[a]) < Rank(c[b]))
      && (c == [] <==> u.name.None? && u.price.None? && u.category.None?)
  {
  }

  /** The first entry whose key is `key`, or `undefined`. */
  function Lookup(params: Params, key: string): Option<Value> {
    if params == [] then None else if params[0].0 == key then Some(params[0].1) else Lookup(params[1..], key)
  }

  /** A lookup in concatenated parameters finds the first part's entry
      when there is one. */
  lemma {:induction false} LookupConcat(a: Params, b: Params, key: string)
    ensures Lookup(a + b, key) == if Lookup(a, key).Some? then Lookup(a, key) else Lookup(b, key)
  {
    if a != [] {
      assert (a + b)[1..] == a[1..] + b;
      LookupConcat(a[1..], b, key);
    } else {
      assert a + b == b;
    }
  }

  /** The parameters always start with `id`; each defined field is bound
      under its own name to the supplied value, an undefined field not at
      all, and no key is bound twice. */
  lemma UpdateParamsFollowFields(id: int, u: ProductUpdate)
    ensures var p := UpdateParams(id, u);
      && p[0] == ("id", IdValue(id))
      && Lookup(p, "name") == (if u.name.Some? then Some(Str(u.name.value)) else None)
      && Lookup(p, "price") == (if u.price.Some? then Some(Num(u.price.value)) else None)
      && Lookup(p, "category") == (if u.category.Some? then Some(Str(u.category.value)) else None)
      && (forall a, b | 0 <= a < b < |p| :: p[a].0 != p[b].0)
      && |p| == |UpdateClauses(u)| + 1
  {
    var idP: Params := [("id", IdValue(id))];
    var nameP: Params := if u.name.Some? then [("name", Str(u.name.value))] else [];
    var priceP: Params := if u.price.Some? then [("price", Num(u.price.value))] else [];
    var categoryP: Params := if u.category.Some? then [("category", Str(u.category.value))] else [];
    assert UpdateParams(id, u) == ((idP + nameP) + priceP) + categoryP;
    LookupParts(idP, nameP, priceP, categoryP, "name");
    LookupParts(idP, nameP, priceP, categoryP, "price");
    LookupParts(idP, nameP, priceP, categoryP, "category");
  }

  lemma LookupParts(a: Params, b: Params, c: Params, d: Params, key: string)
    ensures Lookup(a + b + c + d, key)
      == if Lookup(a, key).Some? then Lookup(a, key)
         else if Lookup(b, key).Some? then Lookup(b, key)
         else if Lookup(c, key).Some? then Lookup(c, key)
         else Lookup(d, key)
  {
    LookupConcat(a + b + c, d, key);
    LookupConcat(a + b, c, key);
    LookupConcat(a, b, key);
  }

  /** All three fields: the full statement. */
  lemma FullUpdateStatement(u: ProductUpdate)
    requires u.name.Some? && u.price.Some? && u.category.Some?
    ensures UpdateStatement(UpdateClauses(u))
      == "UPDATE Products SET " + NameClause + ", " + PriceClause + ", " + CategoryClause + " WHERE id = @id"
  {
    assert UpdateClauses(u) == [NameClause, PriceClause, CategoryClause];
    Text.JoinThree(NameClause, PriceClause, CategoryClause, ", ");
  }

  /** One field: no separator at all. */
  lemma SingleFieldStatement(u: ProductUpdate)
    requires u.name.None? && u.price.Some? && u.category.None?
    ensures UpdateStatement(UpdateClauses(u)) == "UPDATE Products SET " + PriceClause + " WHERE id = @id"
  {
    assert UpdateClauses(u) == [PriceClause];
  }

  /** Lines 91-105: the clauses and parameters grown one field at a time. */
  method BuildUpdate(id: int, updates: ProductUpdate) returns (setClauses: seq<string>, params: Params)
    ensures setClauses == UpdateClauses(updates) && params == UpdateParams(id, updates)
  {
    setClauses := [];
    params := [("id", IdValue(id))];
    if updates.name.Some? {
      setClauses := setClauses + [NameClause];
      params := params + [("name", Str(updates.name.value))];
    }
    if updates.price.Some? {
      setClauses := setClauses + [PriceClause];
      params := params + [("price", Num(updates.price.value))];
    }
    if updates.category.Some? {
      setClauses := setClauses + [CategoryClause];
      params := params + [("category", Str(updates.category.value))];
    }
  }

  /** `result.rowsAffected[0] > 0`; `undefined > 0` is false. */
  function RowsChanged(r: Result<QueryResult>): Result<bool> {
    match r
    case Err(e) => Err(e)
    case Ok(res) => Ok(|res.rowsAffected| > 0 && res.rowsAffected[0] > 0)
  }

  /** `updateProduct` (lines 87-115). With no defined field it returns
      false and sends nothing. */
  method UpdateProduct(db: Database, id: int, updates: ProductUpdate) returns (r: Result<bool>)
    modifies db
    ensures UpdateClauses(updates) == [] ==> r == Ok(false) && unchanged(db)
    ensures UpdateClauses(updates) != [] ==>
      var q := QuerySpec(old(db.State()), db.connectError, db.execute,
                         UpdateStatement(UpdateClauses(updates)), UpdateParams(id, updates));
      db.State() == q.state && db.executed == old(db.executed) + q.sent && r == RowsChanged(q.result)
  {
    var setClauses, params := BuildUpdate(id, updates);
    if |setClauses| == 0 {
      return Ok(false);
    }
    var result := db.Query(UpdateStatement(setClauses), Some(params));
    r := RowsChanged(result);
  }

  /** `deleteProduct` (lines 120-123). */
  method DeleteProduct(db: Database, id: int) returns (r: Result<bool>)
    modifies db
    ensures var q := QuerySpec(old(db.State()), db.connectError, db.execute,
                               "DELETE FROM Products WHERE id = @id", [("id", IdValue(id))]);
      db.State() == q.state && db.executed == old(db.executed) + q.sent && r == RowsChanged(q.result)
  {
    var result := db.Query("DELETE FROM Products WHERE id = @id", Some([("id", IdValue(id))]));
    r := RowsChanged(result);
  }

  /** `result.recordset[0] || null`: a row object is always truthy. */
  function FirstRow(r: Result<QueryResult>): (row: Result<Option<Row>>)
    ensures row.Err? <==> r.Err?
    ensures r.Ok? ==> (row.value.None? <==> r.value.recordset == [])
    ensures r.Ok? && row.value.Some? ==> row.value.value == r.value.recordset[0]
  {
    match r
    case Err(e) => Err(e)
    case Ok(res) => Ok(if res.recordset == [] then None else Some(res.recordset[0]))
  }

  /** `getProductById` (lines 65-71). */
  method GetProductById(db: Database, id: int) returns (r: Result<Option<Row>>)
    modifies db
    ensures var q := QuerySpec(old(db.State()), db.connectError, db.execute,
                               "SELECT id, name, price, category, createdAt FROM Products WHERE id = @id",
                               [("id", IdValue(id))]);
      db.State() == q.state && db.executed == old(db.executed) + q.sent && r == FirstRow(q.result)
  {
    var result := db.Query("SELECT id, name, price, category, createdAt FROM Products WHERE id = @id",
                           Some([("id", IdValue(id))]));
    r := FirstRow(result);
  }

  /** Reading `.id` of the first row of an empty result throws. */
  const NoRowError := "TypeError: Cannot read properties of undefined (reading 'id')"

  /** `result.recordset[0].id`: `undefined` (`None`) when the row has no
      `id` column. */
  function InsertedId(r: Result<QueryResult>): (id: Result<Option<Value>>)
    ensures id.Ok? <==> r.Ok? && r.value.recordset != []
    ensures id.Ok? ==> (id.value.Some? <==> "id" in r.value.recordset[0])
    ensures id.Ok? && id.value.Some? ==> id.value.value == r.value.recordset[0]["id"]
    ensures r.Err? ==> id == Err(r.error)
  {
    match r
    case Err(e) => Err(e)
    case Ok(res) =>
      if res.recordset == [] then Err(NoRowError)
      else if "id" in res.recordset[0] then Ok(Some(res.recordset[0]["id"]))
      else Ok(None)
  }

  const InsertStatement := "INSERT INTO Products (name, price, category)\n     OUTPUT INSERTED.id\n     VALUES (@name, @price, @category)"

  /** `createProduct` (lines 37-50). */
  method CreateProduct(db: Database, product: Product) returns (r: Result<Option<Value>>)
    modifies db
    ensures var q := QuerySpec(old(db.State()), db.connectError, db.execute, InsertStatement, ProductInputs(product));
      db.State() == q.state && db.executed == old(db.executed) + q.sent && r == InsertedId(q.result)
  {
    var result := db.Query(InsertStatement, Some(ProductInputs(product)));
    r := InsertedId(result);
  }

  // ---------------------------------------------------------------------
  // `batchInsertProducts` (lines 128-149). The i-th INSERT inside the
  // transaction returns `insert(i)`.

  /** The operations callback after the first `k` products: the ids so far,
      or the first error. */
  function InsertFirst(products: seq<Product>, k: nat, insert: nat -> Result<QueryResult>): Result<seq<Option<Value>>>
    requires k <= |products|
  {
    if k == 0 then Ok([])
    else match InsertFirst(products, k - 1, insert)
      case Err(e) => Err(e)
      case Ok(ids) =>
        match InsertedId(insert(k - 1))
        case Err(e) => Err(e)
        case Ok(id) => Ok(ids + [id])
  }

  /** When the operations succeed they yield one id per product, in input
      order; when they fail, every insert before the failing one
      succeeded and the error is that insert's. */
  lemma {:induction false} InsertFirstIds(products: seq<Product>, k: nat, insert: nat -> Result<QueryResult>)
    requires k <= |products|
    ensures var r := InsertFirst(products, k, insert);
      && (r.Ok? ==> |r.value| == k && forall j | 0 <= j < k :: InsertedId(insert(j)) == Ok(r.value[j]))
      && (r.Err? ==> exists j | 0 <= j < k :: InsertedId(insert(j)) == Err(r.error)
                      && forall i | 0 <= i < j :: InsertedId(insert(i)).Ok?)
  {
    if k > 0 {
      InsertFirstIds(products, k - 1, insert);
      var prev := InsertFirst(products, k - 1, insert);
      if prev.Ok? && InsertedId(insert(k - 1)).Err? {
        assert forall i | 0 <= i < k - 1 :: InsertedId(insert(i)).Ok? by {
          forall i | 0 <= i < k - 1 ensures InsertedId(insert(i)).Ok? {
            assert InsertedId(insert(i)) == Ok(prev.value[i]);
          }
        }
      }
    }
  }

  /** The transaction driver's outcomes for `begin`, `commit` and
      `rollback`. */
  datatype TxDriver = TxDriver(beginError: Option<string>, commitError: Option<string>, rollbackError: Option<string>)

  /** The loop inside the callback: one request per product, stopping at
      the first failure. */
  method InsertEach(products: seq<Product>, insert: nat -> Result<QueryResult>)
    returns (ids: Result<seq<Option<Value>>>, requests: seq<Params>)
    ensures ids == InsertFirst(products, |products|, insert)
    ensures |requests| <= |products| && (ids.Ok? ==> |requests| == |products|)
    ensures ids.Err? ==> |requests| > 0 && InsertedId(insert(|requests| - 1)) == Err(ids.error)
                         && forall j | 0 <= j < |requests| - 1 :: InsertedId(insert(j)).Ok?
    ensures forall j | 0 <= j < |requests| :: requests[j] == ProductInputs(products[j])
  {
    var collected: seq<Option<Value>> := [];
    requests := [];
    var i := 0;
    while i < |products|
      invariant 0 <= i <= |products| && |requests| == i
      invariant InsertFirst(products, i, insert) == Ok(collected)
      invariant forall j | 0 <= j < i :: requests[j] == ProductInputs(products[j])
      invariant forall j | 0 <= j < i :: InsertedId(insert(j)).Ok?
    {
      requests := requests + [ProductInputs(products[i])];
      var id := InsertedId(insert(i));
      if id.Err? {
        FailedStaysFailed(products, i + 1, |products|, insert);
        return Err(id.error), requests;
      }
      collected := collected + [id.value];
      i := i + 1;
    }
    ids := Ok(collected);
  }

  lemma {:induction false} FailedStaysFailed(products: seq<Product>, j: nat, k: nat, insert: nat -> Result<QueryResult>)
    requires j <= k <= |products| && InsertFirst(products, j, insert).Err?
    ensures InsertFirst(products, k, insert) == InsertFirst(products, j, insert)
  {
    if j < k {
      FailedStaysFailed(products, j, k - 1, insert);
    }
  }

  /** `batchInsertProducts`: the transaction's calls and outcome are those
      of the `transaction` wrapper around the insert loop. The inserts run
      only after `begin` succeeds; a successful loop sends one request per
      product, and a failing one stops at the insert that failed. */
  method BatchInsertProducts(db: Database, products: seq<Product>, tx: TxDriver, insert: nat -> Result<QueryResult>)
    returns (r: Result<seq<Option<Value>>>, calls: seq<TxCall>, requests: seq<Params>)
    modifies db
    ensures var g := GetPoolStep(old(db.State()), db.connectError);
      var ops := InsertFirst(products, |products|, insert);
      && db.State() == g.state && db.executed == old(db.executed)
      && TxRun(calls, r) == Transaction(g.result, tx.beginError, ops, tx.commitError, tx.rollbackError)
      && (RunOperations !in calls ==> requests == [])
      && (RunOperations in calls && ops.Ok? ==> |requests| == |products|)
      && (RunOperations in calls && ops.Err? ==>
            |requests| > 0 && InsertedId(insert(|requests| - 1)) == Err(ops.error)
            && forall j | 0 <= j < |requests| - 1 :: InsertedId(insert(j)).Ok?)
    ensures |requests| <= |products|
    ensures forall j | 0 <= j < |requests| :: requests[j] == ProductInputs(products[j])
  {
    requests := [];
    calls := [];
    var pool := db.GetPool();
    if pool.Err? {
      return Err(pool.error), calls, requests;
    }
    var caught: Option<string> := None;
    calls := [Begin];
    if tx.beginError.Some? {
      caught := tx.beginError;
    } else {
      calls := calls + [RunOperations];
      var ids;
      ids, requests := InsertEach(products, insert);
      if ids.Err? {
        caught := Some(ids.error);
      } else {
        calls := calls + [Commit];
        if tx.commitError.Some? {
          caught := tx.commitError;
        } else {
          return Ok(ids.value), calls, requests;
        }
      }
    }
    calls := calls + [Rollback];
    r := if tx.rollbackError.Some? then Err(tx.rollbackError.value) else Err(caught.value);
  }

  /** With every step succeeding, the batch yields one id per product in
      input order. */
  lemma BatchReturnsIdsInOrder(pool: Result<nat>, products: seq<Product>, tx: TxDriver, insert: nat -> Result<QueryResult>)
    requires pool.Ok? && tx.beginError.None? && tx.commitError.None?
    requires forall j | 0 <= j < |products| :: InsertedId(insert(j)).Ok?
    ensures var r := Transaction(pool, tx.beginError, InsertFirst(products, |products|, insert),
                                 tx.commitError, tx.rollbackError).result;
      r.Ok? && |r.value| == |products|
      && forall j | 0 <= j < |products| :: Ok(r.value[j]) == InsertedId(insert(j))
  {
    InsertFirstIds(products, |products|, insert);
  }
}
