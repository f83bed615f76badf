/**
 The relational sampler: the first n users in order of appearance, and the foreign-key closure of their
 orders over the six tables (scripts/sample_dataset.py).
 */
module SampleDataset {
  import opened Collections

  datatype Order = Order(orderId: string, userId: string, evalSet: string, rest: seq<string>)
  datatype OrderItem = OrderItem(orderId: string, productId: string, rest: seq<string>)
  datatype Product = Product(productId: string, name: string, aisleId: string, departmentId: string)
  datatype Named = Named(id: string, name: string)

  datatype Dataset = Dataset(
    orders: seq<Order>, prior: seq<OrderItem>, train: seq<OrderItem>,
    products: seq<Product>, aisles: seq<Named>, departments: seq<Named>)

  datatype Summary = Summary(users: nat, orders: nat, priorItems: nat, trainItems: nat, products: nat)

  const PRIOR := "prior"
  const TRAIN := "train"

  // ----- the reference selection -----

  /** The distinct users, in order of their first order. */
  function Users(orders: seq<Order>): seq<string> {
    if orders == [] then []
    else
      var earlier, last := Users(orders[..|orders| - 1]), orders[|orders| - 1].userId;
      if last in earlier then earlier else earlier + [last]
  }

  function Clamp(n: int, size: nat): nat {
    if n < 0 then 0 else if n < size then n else size
  }

  function FirstUsers(orders: seq<Order>, n: int): set<string> {
    Elements(Users(orders)[..Clamp(n, |Users(orders)|)])
  }

  function OrdersOf(orders: seq<Order>, users: set<string>): seq<Order> {
    Filter(orders, (o: Order) => o.userId in users)
  }

  function OrderIds(orders: seq<Order>, evalSet: string): set<string> {
    set o | o in orders && o.evalSet == evalSet :: o.orderId
  }

  function ItemsOf(items: seq<OrderItem>, orderIds: set<string>): seq<OrderItem> {
    Filter(items, (i: OrderItem) => i.orderId in orderIds)
  }

  function ProductIds(items: seq<OrderItem>): set<string> {
    set i | i in items :: i.productId
  }

  function ProductsOf(products: seq<Product>, ids: set<string>): seq<Product> {
    Filter(products, (p: Product) => p.productId in ids)
  }

  function AisleIds(products: seq<Product>): set<string> {
    set p | p in products :: p.aisleId
  }

  function DepartmentIds(products: seq<Product>): set<string> {
    set p | p in products :: p.departmentId
  }

  function WithIds(rows: seq<Named>, ids: set<string>): seq<Named> {
    Filter(rows, (r: Named) => r.id in ids)
  }

  /** The extract of the first n users. */
  function Extract(d: Dataset, n: int): Dataset {
    var orders := OrdersOf(d.orders, FirstUsers(d.orders, n));
    var prior, train := ItemsOf(d.prior, OrderIds(orders, PRIOR)), ItemsOf(d.train, OrderIds(orders, TRAIN));
    var products := ProductsOf(d.products, ProductIds(prior) + ProductIds(train));
    Dataset(orders, prior, train, products,
            WithIds(d.aisles, AisleIds(products)), WithIds(d.departments, DepartmentIds(products)))
  }

  // ----- the one-pass selection -----

  lemma {:induction false} UsersHold(orders: seq<Order>)
    ensures Distinct(Users(orders))
    ensures forall u :: u in Users(orders) <==> exists o :: o in orders && o.userId == u
  {
    if orders != [] {
      var earlier, last := orders[..|orders| - 1], orders[|orders| - 1];
      UsersHold(earlier);
      assert orders == earlier + [last];
      assert last in orders;
    }
  }

  lemma FirstUsersSize(orders: seq<Order>, n: int)
    ensures |FirstUsers(orders, n)| == Clamp(n, |Users(orders)|)
  {
    UsersHold(orders);
    DistinctSize(Users(orders)[..Clamp(n, |Users(orders)|)]);
  }

  lemma FirstUsersAll(orders: seq<Order>, n: int)
    requires |Users(orders)| <= n
    ensures FirstUsers(orders, n) == Elements(Users(orders))
  {
    assert Users(orders)[..|Users(orders)|] == Users(orders);
  }

  /** One more order: a known user changes nothing, a new user joins only while there is room. */
  lemma FirstUsersStep(orders: seq<Order>, o: Order, n: int)
    ensures var before, after := FirstUsers(orders, n), FirstUsers(orders + [o], n);
            && after == (if o.userId !in before && |before| < n then before + {o.userId} else before)
            && OrdersOf(orders, after) == OrdersOf(orders, before)
  {
    var users, more := Users(orders), Users(orders + [o]);
    assert (orders + [o])[..|orders|] == orders;
    FirstUsersSize(orders, n);
    UsersHold(orders);
    var before, after := FirstUsers(orders, n), FirstUsers(orders + [o], n);
    if |users| < n {
      FirstUsersAll(orders, n);
      FirstUsersAll(orders + [o], n);
      assert Elements(users + [o.userId]) == Elements(users) + {o.userId};
    } else {
      var k := Clamp(n, |users|);
      assert more[..k] == users[..k];
    }
    forall x | x in orders ensures x.userId in after <==> x.userId in before {
      assert x.userId in Users(orders);
    }
    FilterSame(orders, (x: Order) => x.userId in after, (x: Order) => x.userId in before);
  }

  lemma OrdersOfOneMore(orders: seq<Order>, o: Order, users: set<string>)
    ensures OrdersOf(orders + [o], users) == if o.userId in users then OrdersOf(orders, users) + [o] else OrdersOf(orders, users)
  {
    assert (orders + [o])[..|orders|] == orders;
  }

  lemma OrderIdsOfOneMore(orders: seq<Order>, o: Order, evalSet: string)
    ensures OrderIds(orders + [o], evalSet)
         == if o.evalSet == evalSet then OrderIds(orders, evalSet) + {o.orderId} else OrderIds(orders, evalSet)
  {
    assert forall x :: x in orders + [o] <==> x in orders || x == o;
  }

  /** One pass over the orders: users, their orders, and the order ids of the two evaluation sets. */
  method SelectOrders(orders: seq<Order>, n: int)
    returns (users: set<string>, filtered: seq<Order>, priorIds: set<string>, trainIds: set<string>)
    ensures users == FirstUsers(orders, n)
    ensures filtered == OrdersOf(orders, FirstUsers(orders, n))
    ensures priorIds == OrderIds(filtered, PRIOR) && trainIds == OrderIds(filtered, TRAIN)
  {
    users, filtered, priorIds, trainIds := {}, [], {}, {};
    assert PRIOR[0] != TRAIN[0];
    hide PRIOR;
    hide TRAIN;
    hide FirstUsers;
    hide OrdersOf;
    hide OrderIds;
    NothingSelected(n);
    for i := 0 to |orders|
      invariant users == FirstUsers(orders[..i], n)
      invariant filtered == OrdersOf(orders[..i], users)
      invariant priorIds == OrderIds(filtered, PRIOR) && trainIds == OrderIds(filtered, TRAIN)
    {
      var row := orders[i];
      PrefixStep(orders, i);
      FirstUsersStep(orders[..i], row, n);
      OrdersOfOneMore(orders[..i], row, FirstUsers(orders[..i + 1], n));
      if row.userId in users || |users| < n {
        users := users + {row.userId};
        OrderIdsOfOneMore(filtered, row, PRIOR);
        OrderIdsOfOneMore(filtered, row, TRAIN);
        filtered := filtered + [row];
        if row.evalSet == PRIOR {
          priorIds := priorIds + {row.orderId};
        } else if row.evalSet == TRAIN {
          trainIds := trainIds + {row.orderId};
        }
      }
    }
    assert orders[..|orders|] == orders;
  }

  lemma NothingSelected(n: int)
    ensures FirstUsers([], n) == {} && OrdersOf([], {}) == []
    ensures OrderIds([], PRIOR) == {} && OrderIds([], TRAIN) == {}
  {
  }

  lemma ProductIdsOfOneMore(items: seq<OrderItem>, i: OrderItem)
    ensures ProductIds(items + [i]) == ProductIds(items) + {i.productId}
  {
    assert forall x :: x in items + [i] <==> x in items || x == i;
  }

  method FilterOrderProducts(items: seq<OrderItem>, validOrders: set<string>, referenced: set<string>)
    returns (results: seq<OrderItem>, nowReferenced: set<string>)
    ensures results == ItemsOf(items, validOrders)
    ensures nowReferenced == referenced + ProductIds(results)
  {
    results, nowReferenced := [], referenced;
    for i := 0 to |items|
      invariant results == ItemsOf(items[..i], validOrders)
      invariant nowReferenced == referenced + ProductIds(results)
    {
      PrefixStep(items, i);
      if items[i].orderId in validOrders {
        ProductIdsOfOneMore(results, items[i]);
        results := results + [items[i]];
        nowReferenced := nowReferenced + {items[i].productId};
      }
    }
    assert items[..|items|] == items;
  }

  lemma CatalogOfOneMore(products: seq<Product>, p: Product)
    ensures AisleIds(products + [p]) == AisleIds(products) + {p.aisleId}
    ensures DepartmentIds(products + [p]) == DepartmentIds(products) + {p.departmentId}
  {
    assert forall x :: x in products + [p] <==> x in products || x == p;
  }

  method FilterProducts(products: seq<Product>, referenced: set<string>)
    returns (results: seq<Product>, aisles: set<string>, departments: set<string>)
    ensures results == ProductsOf(products, referenced)
    ensures aisles == AisleIds(results) && departments == DepartmentIds(results)
  {
    results, aisles, departments := [], {}, {};
    for i := 0 to |products|
      invariant results == ProductsOf(products[..i], referenced)
      invariant aisles == AisleIds(results) && departments == DepartmentIds(results)
    {
      PrefixStep(products, i);
      if products[i].productId in referenced {
        CatalogOfOneMore(results, products[i]);
        results := results + [products[i]];
        aisles := aisles + {products[i].aisleId};
        departments := departments + {products[i].departmentId};
      }
    }
    assert products[..|products|] == products;
  }

  method FilterById(rows: seq<Named>, validIds: set<string>) returns (results: seq<Named>)
    ensures results == WithIds(rows, validIds)
  {
    results := [];
    for i := 0 to |rows|
      invariant results == WithIds(rows[..i], validIds)
    {
      PrefixStep(rows, i);
      if rows[i].id in validIds {
        results := results + [rows[i]];
      }
    }
    assert rows[..|rows|] == rows;
  }

  method ExtractSampleDataset(source: Dataset, targetUsers: int) returns (target: Dataset, summary: Summary)
    ensures target == Extract(source, targetUsers)
    ensures summary.users == Clamp(targetUsers, |Users(source.orders)|)
    ensures summary == Summary(summary.users, |target.orders|, |target.prior|, |target.train|, |target.products|)
  {
    hide FirstUsers;
    hide OrdersOf;
    hide ItemsOf;
    hide ProductsOf;
    hide WithIds;
    hide Users;
    var users, orders, priorIds, trainIds := SelectOrders(source.orders, targetUsers);
    FirstUsersSize(source.orders, targetUsers);
    var referenced: set<string> := {};
    var prior, train;
    prior, referenced := FilterOrderProducts(source.prior, priorIds, referenced);
    train, referenced := FilterOrderProducts(source.train, trainIds, referenced);
    var products, aisleIds, departmentIds := FilterProducts(source.products, referenced);
    var aisles := FilterById(source.aisles, aisleIds);
    var departments := FilterById(source.departments, departmentIds);
    assert {} + ProductIds(prior) == ProductIds(prior);
    target := Dataset(orders, prior, train, products, aisles, departments);
    summary := Summary(|users|, |orders|, |prior|, |train|, |products|);
  }

  // ----- sampling composes -----

  function Among(users: set<string>): string -> bool {
    u => u in users
  }

  lemma UsersOfOneMore(orders: seq<Order>, o: Order)
    ensures Users(orders + [o]) == if o.userId in Users(orders) then Users(orders) else Users(orders) + [o.userId]
  {
    assert (orders + [o])[..|orders|] == orders;
  }

  lemma FilterOneMore<T>(s: seq<T>, x: T, keep: T -> bool)
    ensures Filter(s + [x], keep) == if keep(x) then Filter(s, keep) + [x] else Filter(s, keep)
  {
    assert (s + [x])[..|s|] == s;
  }

  lemma {:induction false} UsersOfKept(orders: seq<Order>, users: set<string>)
    ensures Users(OrdersOf(orders, users)) == Filter(Users(orders), Among(users))
  {
    if orders != [] {
      var earlier, last := orders[..|orders| - 1], orders[|orders| - 1];
      var kept := Among(users);
      assert orders == earlier + [last];
      UsersOfKept(earlier, users);
      UsersOfOneMore(earlier, last);
      OrdersOfOneMore(earlier, last, users);
      UsersOfOneMore(OrdersOf(earlier, users), last);
      FilterOneMore(Users(earlier), last.userId, kept);
      FilterHolds(Users(earlier), kept);
      assert last.userId in Users(OrdersOf(earlier, users)) <==> last.userId in Users(earlier) && last.userId in users;
    }
  }

  lemma {:induction false} KeepingAPrefix(users: seq<string>, k: nat)
    requires Distinct(users) && k <= |users|
    ensures Filter(users, Among(Elements(users[..k]))) == users[..k]
  {
    var kept := Among(Elements(users[..k]));
    if k == |users| {
      assert users[..k] == users;
      FilterKeepsAll(users, kept);
    } else {
      var shorter, last := users[..|users| - 1], users[|users| - 1];
      assert shorter[..k] == users[..k];
      KeepingAPrefix(shorter, k);
      FilterSame(shorter, kept, Among(Elements(shorter[..k])));
      assert last !in users[..k];
    }
  }

  lemma UsersOfExtract(orders: seq<Order>, n: int)
    ensures Users(OrdersOf(orders, FirstUsers(orders, n))) == Users(orders)[..Clamp(n, |Users(orders)|)]
  {
    UsersHold(orders);
    UsersOfKept(orders, FirstUsers(orders, n));
    KeepingAPrefix(Users(orders), Clamp(n, |Users(orders)|));
  }

  function Min(m: int, n: int): int {
    if m <= n then m else n
  }

  lemma FirstUsersOfExtract(orders: seq<Order>, n: int, m: int)
    ensures FirstUsers(OrdersOf(orders, FirstUsers(orders, n)), m) == FirstUsers(orders, Min(m, n))
    ensures FirstUsers(orders, Min(m, n)) <= FirstUsers(orders, n)
  {
    UsersOfExtract(orders, n);
    var users := Users(orders);
    var k, j := Clamp(n, |users|), Clamp(Min(m, n), |users|);
    assert users[..k][..j] == users[..j];
    assert Clamp(m, k) == j;
    forall u | u in users[..j] ensures u in users[..k] {
      var i :| 0 <= i < j && users[..j][i] == u;
      assert users[..k][i] == u;
    }
  }

  lemma OrdersCompose(orders: seq<Order>, n: int, m: int)
    ensures var extracted := OrdersOf(orders, FirstUsers(orders, n));
            var smaller := OrdersOf(orders, FirstUsers(orders, Min(m, n)));
            && OrdersOf(extracted, FirstUsers(extracted, m)) == smaller
            && forall o :: o in smaller ==> o in extracted
  {
    var many, few := FirstUsers(orders, n), FirstUsers(orders, Min(m, n));
    FirstUsersOfExtract(orders, n, m);
    var inMany, inFew := (o: Order) => o.userId in many, (o: Order) => o.userId in few;
    FilterAgain(orders, inMany, inFew, inFew);
    FilterHolds(orders, inMany);
    FilterHolds(orders, inFew);
  }

  lemma ItemsCompose(items: seq<OrderItem>, many: set<string>, few: set<string>)
    requires few <= many
    ensures ItemsOf(ItemsOf(items, many), few) == ItemsOf(items, few)
    ensures ProductIds(ItemsOf(items, few)) <= ProductIds(ItemsOf(items, many))
  {
    var inMany, inFew := (i: OrderItem) => i.orderId in many, (i: OrderItem) => i.orderId in few;
    FilterAgain(items, inMany, inFew, inFew);
    FilterHolds(items, inMany);
    FilterHolds(items, inFew);
  }

  lemma ProductsCompose(products: seq<Product>, many: set<string>, few: set<string>)
    requires few <= many
    ensures ProductsOf(ProductsOf(products, many), few) == ProductsOf(products, few)
    ensures AisleIds(ProductsOf(products, few)) <= AisleIds(ProductsOf(products, many))
    ensures DepartmentIds(ProductsOf(products, few)) <= DepartmentIds(ProductsOf(products, many))
  {
    var inMany, inFew := (p: Product) => p.productId in many, (p: Product) => p.productId in few;
    FilterAgain(products, inMany, inFew, inFew);
    FilterHolds(products, inMany);
    FilterHolds(products, inFew);
  }

  lemma NamedCompose(rows: seq<Named>, many: set<string>, few: set<string>)
    requires few <= many
    ensures WithIds(WithIds(rows, many), few) == WithIds(rows, few)
  {
    FilterAgain(rows, (r: Named) => r.id in many, (r: Named) => r.id in few, (r: Named) => r.id in few);
  }

  /** Extracting m users from an n-user extract is extracting min(m, n) users from the source. */
  lemma SamplingComposes(d: Dataset, n: int, m: int)
    ensures Extract(Extract(d, n), m) == Extract(d, Min(m, n))
  {
    hide FirstUsers;
    hide OrdersOf;
    hide ItemsOf;
    hide ProductsOf;
    hide WithIds;
    hide Min;
    hide AisleIds;
    hide DepartmentIds;
    hide ProductIds;
    var large, small := Extract(d, n), Extract(d, Min(m, n));
    OrdersCompose(d.orders, n, m);
    ItemsCompose(d.prior, OrderIds(large.orders, PRIOR), OrderIds(small.orders, PRIOR));
    ItemsCompose(d.train, OrderIds(large.orders, TRAIN), OrderIds(small.orders, TRAIN));
    ProductsCompose(d.products, ProductIds(large.prior) + ProductIds(large.train), ProductIds(small.prior) + ProductIds(small.train));
    NamedCompose(d.aisles, AisleIds(large.products), AisleIds(small.products));
    NamedCompose(d.departments, DepartmentIds(large.products), DepartmentIds(small.products));
  }

  lemma SamplingIsIdempotent(d: Dataset, n: int)
    ensures Extract(Extract(d, n), n) == Extract(d, n)
  {
    hide Extract;
    SamplingComposes(d, n, n);
  }

  // ----- referential integrity -----

  /** Every item belongs to an order of its evaluation set, and nothing in the catalog is unreferenced. */
  ghost predicate Tight(d: Dataset) {
    && (forall i :: i in d.prior ==> i.orderId in OrderIds(d.orders, PRIOR))
    && (forall i :: i in d.train ==> i.orderId in OrderIds(d.orders, TRAIN))
    && (forall p :: p in d.products ==> p.productId in ProductIds(d.prior) + ProductIds(d.train))
    && (forall a :: a in d.aisles ==> a.id in AisleIds(d.products))
    && (forall r :: r in d.departments ==> r.id in DepartmentIds(d.products))
  }

  function RowIds(rows: seq<Named>): set<string> {
    set r | r in rows :: r.id
  }

  function CatalogIds(products: seq<Product>): set<string> {
    set p | p in products :: p.productId
  }

  /** Every foreign key of the six tables resolves. */
  ghost predicate Integrity(d: Dataset) {
    && (forall i :: i in d.prior ==> i.orderId in OrderIds(d.orders, PRIOR))
    && (forall i :: i in d.train ==> i.orderId in OrderIds(d.orders, TRAIN))
    && ProductIds(d.prior) + ProductIds(d.train) <= CatalogIds(d.products)
    && AisleIds(d.products) <= RowIds(d.aisles)
    && DepartmentIds(d.products) <= RowIds(d.departments)
  }

  /** Whatever the source, the extract has no dangling item and no unreferenced catalog row. */
  lemma ExtractIsTight(d: Dataset, n: int)
    ensures Tight(Extract(d, n))
  {
    hide FirstUsers;
    hide OrdersOf;
    var e := Extract(d, n);
    FilterHolds(d.prior, (i: OrderItem) => i.orderId in OrderIds(e.orders, PRIOR));
    FilterHolds(d.train, (i: OrderItem) => i.orderId in OrderIds(e.orders, TRAIN));
    FilterHolds(d.products, (p: Product) => p.productId in ProductIds(e.prior) + ProductIds(e.train));
    FilterHolds(d.aisles, (r: Named) => r.id in AisleIds(e.products));
    FilterHolds(d.departments, (r: Named) => r.id in DepartmentIds(e.products));
  }

  lemma CatalogClosed(products: seq<Product>, ids: set<string>)
    requires ids <= CatalogIds(products)
    ensures ids <= CatalogIds(ProductsOf(products, ids))
  {
    FilterHolds(products, (p: Product) => p.productId in ids);
    forall id | id in ids ensures id in CatalogIds(ProductsOf(products, ids)) {
      var p :| p in products && p.productId == id;
      assert p in ProductsOf(products, ids);
    }
  }

  lemma RowsClosed(rows: seq<Named>, ids: set<string>)
    requires ids <= RowIds(rows)
    ensures ids <= RowIds(WithIds(rows, ids))
  {
    FilterHolds(rows, (r: Named) => r.id in ids);
    forall id | id in ids ensures id in RowIds(WithIds(rows, ids)) {
      var r :| r in rows && r.id == id;
      assert r in WithIds(rows, ids);
    }
  }

  lemma FewerReferences(d: Dataset, n: int)
    ensures var e := Extract(d, n);
            && ProductIds(e.prior) <= ProductIds(d.prior) && ProductIds(e.train) <= ProductIds(d.train)
            && AisleIds(e.products) <= AisleIds(d.products) && DepartmentIds(e.products) <= DepartmentIds(d.products)
  {
    hide FirstUsers;
    hide OrdersOf;
    var e := Extract(d, n);
    FilterHolds(d.prior, (i: OrderItem) => i.orderId in OrderIds(e.orders, PRIOR));
    FilterHolds(d.train, (i: OrderItem) => i.orderId in OrderIds(e.orders, TRAIN));
    FilterHolds(d.products, (p: Product) => p.productId in ProductIds(e.prior) + ProductIds(e.train));
  }

  /** Referential integrity survives the extraction. */
  lemma IntegrityPreserved(d: Dataset, n: int)
    requires Integrity(d)
    ensures Integrity(Extract(d, n))
  {
    hide FirstUsers;
    hide OrdersOf;
    hide ItemsOf;
    hide ProductsOf;
    hide WithIds;
    var e := Extract(d, n);
    ExtractIsTight(d, n);
    FewerReferences(d, n);
    CatalogClosed(d.products, ProductIds(e.prior) + ProductIds(e.train));
    RowsClosed(d.aisles, AisleIds(e.products));
    RowsClosed(d.departments, DepartmentIds(e.products));
  }

  /** Extraction returns the source itself exactly when it is tight and has at most n users. */
  lemma UnchangedExactly(d: Dataset, n: int)
    ensures Extract(d, n) == d <==> Tight(d) && |Users(d.orders)| <= Clamp(n, |Users(d.orders)|)
  {
    if Extract(d, n) == d {
      ExtractIsTight(d, n);
      UsersOfExtract(d.orders, n);
    }
    if Tight(d) && |Users(d.orders)| <= Clamp(n, |Users(d.orders)|) {
      assert Users(d.orders)[..|Users(d.orders)|] == Users(d.orders);
      UsersHold(d.orders);
      TightKept(d, FirstUsers(d.orders, n));
    }
  }

  lemma TightKept(d: Dataset, users: set<string>)
    requires Tight(d) && forall o :: o in d.orders ==> o.userId in users
    ensures OrdersOf(d.orders, users) == d.orders
    ensures ItemsOf(d.prior, OrderIds(d.orders, PRIOR)) == d.prior
    ensures ItemsOf(d.train, OrderIds(d.orders, TRAIN)) == d.train
    ensures ProductsOf(d.products, ProductIds(d.prior) + ProductIds(d.train)) == d.products
    ensures WithIds(d.aisles, AisleIds(d.products)) == d.aisles
    ensures WithIds(d.departments, DepartmentIds(d.products)) == d.departments
  {
    FilterKeepsAll(d.orders, (o: Order) => o.userId in users);
    FilterKeepsAll(d.prior, (i: OrderItem) => i.orderId in OrderIds(d.orders, PRIOR));
    FilterKeepsAll(d.train, (i: OrderItem) => i.orderId in OrderIds(d.orders, TRAIN));
    FilterKeepsAll(d.products, (p: Product) => p.productId in ProductIds(d.prior) + ProductIds(d.train));
    FilterKeepsAll(d.aisles, (r: Named) => r.id in AisleIds(d.products));
    FilterKeepsAll(d.departments, (r: Named) => r.id in DepartmentIds(d.products));
  }

  // ----- the extract, row by row -----

  function UsersIn(orders: seq<Order>): set<string> {
    set o | o in orders :: o.userId
  }

  lemma UsersCounted(orders: seq<Order>, n: int)
    ensures |UsersIn(orders)| == |Users(orders)|
    ensures |FirstUsers(orders, n)| < n <==> |UsersIn(orders)| < n
  {
    UsersHold(orders);
    DistinctSize(Users(orders));
    assert UsersIn(orders) == Elements(Users(orders));
    FirstUsersSize(orders, n);
  }

  ghost predicate Selected(orders: seq<Order>, n: int, u: string) {
    exists k :: 0 <= k < |orders| && orders[k].userId == u && |UsersIn(orders[..k])| < n
  }

  lemma SelectedOneMore(earlier: seq<Order>, o: Order, n: int, u: string)
    ensures Selected(earlier + [o], n, u) <==> Selected(earlier, n, u) || (o.userId == u && |UsersIn(earlier)| < n)
  {
    hide UsersIn;
    var orders := earlier + [o];
    assert orders[..|earlier|] == earlier && orders[|earlier|] == o;
    if Selected(earlier, n, u) {
      var k :| 0 <= k < |earlier| && earlier[k].userId == u && |UsersIn(earlier[..k])| < n;
      assert orders[k] == earlier[k] && orders[..k] == earlier[..k];
    }
    if Selected(orders, n, u) {
      var k :| 0 <= k < |orders| && orders[k].userId == u && |UsersIn(orders[..k])| < n;
      if k < |earlier| {
        assert earlier[k] == orders[k] && earlier[..k] == orders[..k];
      }
    }
  }

  /** A user is selected exactly when one of the user's orders comes before n users have been seen. */
  lemma {:induction false} FirstUsersExactly(orders: seq<Order>, n: int, u: string)
    ensures u in FirstUsers(orders, n) <==>
            exists k :: 0 <= k < |orders| && orders[k].userId == u && |UsersIn(orders[..k])| < n
  {
    if orders == [] {
      NothingSelected(n);
    } else {
      var last := |orders| - 1;
      var earlier := orders[..last];
      FirstUsersExactly(earlier, n, u);
      assert u in FirstUsers(earlier, n) <==> Selected(earlier, n, u);
      FirstUsersStep(earlier, orders[last], n);
      UsersCounted(earlier, n);
      SelectedOneMore(earlier, orders[last], n, u);
      hide FirstUsers, UsersIn;
      assert orders == earlier + [orders[last]];
      assert u in FirstUsers(orders, n) <==> Selected(orders, n, u) by {
        hide *;
      }
    }
  }

  lemma OrdersKept(orders: seq<Order>, n: int, o: Order)
    ensures o in OrdersOf(orders, FirstUsers(orders, n)) <==>
            o in orders && exists k :: 0 <= k < |orders| && orders[k].userId == o.userId && |UsersIn(orders[..k])| < n
  {
    FirstUsersExactly(orders, n, o.userId);
    hide FirstUsers;
    FilterHolds(orders, (x: Order) => x.userId in FirstUsers(orders, n));
  }

  lemma ItemsKept(items: seq<OrderItem>, orders: seq<Order>, evalSet: string, i: OrderItem)
    ensures i in ItemsOf(items, OrderIds(orders, evalSet)) <==>
            i in items && exists o :: o in orders && o.evalSet == evalSet && o.orderId == i.orderId
  {
    FilterHolds(items, (x: OrderItem) => x.orderId in OrderIds(orders, evalSet));
  }

  lemma ProductsKept(products: seq<Product>, prior: seq<OrderItem>, train: seq<OrderItem>, p: Product)
    ensures p in ProductsOf(products, ProductIds(prior) + ProductIds(train)) <==>
            p in products && exists i :: (i in prior || i in train) && i.productId == p.productId
  {
    FilterHolds(products, (x: Product) => x.productId in ProductIds(prior) + ProductIds(train));
  }

  lemma NamedKept(rows: seq<Named>, products: seq<Product>, r: Named)
    ensures r in WithIds(rows, AisleIds(products)) <==> r in rows && exists p :: p in products && p.aisleId == r.id
    ensures r in WithIds(rows, DepartmentIds(products)) <==> r in rows && exists p :: p in products && p.departmentId == r.id
  {
    FilterHolds(rows, (x: Named) => x.id in AisleIds(products));
    FilterHolds(rows, (x: Named) => x.id in DepartmentIds(products));
  }

  /**
   What the extract of the first n users keeps, table by table: their orders, the items of those orders by
   evaluation set, the products of those items, and the aisles and departments of those products.
   */
  lemma ExtractSpelledOut(d: Dataset, n: int)
    ensures var e := Extract(d, n);
            && (forall o :: o in e.orders <==> o in d.orders && exists k :: 0 <= k < |d.orders| && d.orders[k].userId == o.userId
                                                                          && |UsersIn(d.orders[..k])| < n)
            && (forall i :: i in e.prior <==> i in d.prior && exists o :: o in e.orders && o.evalSet == "prior" && o.orderId == i.orderId)
            && (forall i :: i in e.train <==> i in d.train && exists o :: o in e.orders && o.evalSet == "train" && o.orderId == i.orderId)
            && (forall p :: p in e.products <==> p in d.products && exists i :: (i in e.prior || i in e.train) && i.productId == p.productId)
            && (forall a :: a in e.aisles <==> a in d.aisles && exists p :: p in e.products && p.aisleId == a.id)
            && (forall a :: a in e.departments <==> a in d.departments && exists p :: p in e.products && p.departmentId == a.id)
  {
    hide FirstUsers, OrdersOf, ItemsOf, ProductsOf, WithIds, OrderIds, ProductIds, AisleIds, DepartmentIds, UsersIn;
    var e := Extract(d, n);
    forall o { OrdersKept(d.orders, n, o); }
    forall i { ItemsKept(d.prior, e.orders, "prior", i); }
    forall i { ItemsKept(d.train, e.orders, "train", i); }
    forall p { ProductsKept(d.products, e.prior, e.train, p); }
    forall a { NamedKept(d.aisles, e.products, a); }
    forall a { NamedKept(d.departments, e.products, a); }
  }
}
