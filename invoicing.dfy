/** The invoice side of the shop: products, request lines, invoices and their items, and the
    arithmetic `makeInvoice` does over them. */
module Invoicing {
  import opened Wrappers
  import opened Users

  type ProductId = nat
  type InvoiceId = nat

  /** A row of the Product table, read-only here. Prices are whole amounts. */
  datatype Product = Product(price: nat, active: bool)

  /** The Product table, keyed by id. */
  type Catalog = map<ProductId, Product>

  /** One entry of the request's `products` array. */
  datatype LineItem = LineItem(id: ProductId, quantity: nat)

  /** A row of the InvoiceItem table, kept with the invoice it belongs to. */
  datatype InvoiceItem = InvoiceItem(product: ProductId, quantity: nat, subtotal: nat)

  /** A row of the Invoice table. `status` is "pending", "paid" or whatever status the
      payment gateway reported. */
  datatype Invoice = Invoice(
    id: InvoiceId,
    owner: UserId,
    total: nat,
    status: string,
    zcTransactionId: Option<string>,
    zcOperation: Option<string>,
    zcMsisdn: Option<string>,
    zcMsg: Option<string>,
    items: seq<InvoiceItem>)

  /** The product exists and is active: `findByIds(ids, { where: { active: true } })`. */
  predicate Available(catalog: Catalog, id: ProductId) {
    id in catalog && catalog[id].active
  }

  /** Some request line names product `id`. */
  predicate Requests(lines: seq<LineItem>, id: ProductId) {
    exists j :: 0 <= j < |lines| && lines[j].id == id
  }

  /** The product ids of the request lines, in order. */
  function Ids(lines: seq<LineItem>): (ids: seq<ProductId>) {
    seq(|lines|, i requires 0 <= i < |lines| => lines[i].id)
  }

  /** The first loop of `makeInvoice`: check each line against its schema and collect the
      ids; the first line that fails stops the handler. */
  method CollectIds(lines: seq<LineItem>, lineValid: LineItem -> bool)
    returns (r: Option<seq<ProductId>>)
    ensures r.Some? <==> forall i :: 0 <= i < |lines| ==> lineValid(lines[i])
    ensures r.Some? ==> |r.value| == |lines| && forall i :: 0 <= i < |lines| ==> r.value[i] == lines[i].id
  {
    var ids := [];
    for i := 0 to |lines|
      invariant |ids| == i
      invariant forall j :: 0 <= j < i ==> lineValid(lines[j]) && ids[j] == lines[j].id
    {
      if !lineValid(lines[i]) {
        return None;
      }
      ids := ids + [lines[i].id];
    }
    r := Some(ids);
  }

  /** `Product.findByIds(ids, { where: { active: true } })`: each available product among
      the ids once, in the order of its first mention. */
  function FindByIds(catalog: Catalog, ids: seq<ProductId>): (found: seq<ProductId>)
    ensures forall k :: 0 <= k < |found| ==> Available(catalog, found[k]) && found[k] in ids
    ensures forall id :: id in ids && Available(catalog, id) ==> id in found
    ensures forall k, m :: 0 <= k < m < |found| ==> found[k] != found[m]
  {
    if ids == [] then []
    else
      var rest, id := FindByIds(catalog, ids[..|ids| - 1]), ids[|ids| - 1];
      if Available(catalog, id) && id !in ids[..|ids| - 1] then rest + [id] else rest
  }

  /** The index of the first request line naming `id`, searching from `from`:
      `req.body.products.filter((e) => e.id == product.id)[0]`. */
  function FirstIndexFrom(lines: seq<LineItem>, id: ProductId, from: nat): (i: nat)
    requires from <= |lines| && exists j :: from <= j < |lines| && lines[j].id == id
    ensures from <= i < |lines| && lines[i].id == id
    ensures forall j :: from <= j < i ==> lines[j].id != id
    decreases |lines| - from
  {
    if lines[from].id == id then from else FirstIndexFrom(lines, id, from + 1)
  }

  /** The quantity of the first request line naming `id`. */
  function FirstQuantity(lines: seq<LineItem>, id: ProductId): (quantity: nat)
    requires Requests(lines, id)
  {
    lines[FirstIndexFrom(lines, id, 0)].quantity
  }

  /** The first line naming a product gives its quantity; later lines with that id are ignored. */
  lemma FirstQuantityAt(lines: seq<LineItem>, i: nat)
    requires i < |lines| && !Requests(lines[..i], lines[i].id)
    ensures Requests(lines, lines[i].id) && FirstQuantity(lines, lines[i].id) == lines[i].quantity
  {
  }

  /** Every product in `found` is available and requested, so it has a price and a quantity. */
  predicate Priced(catalog: Catalog, lines: seq<LineItem>, found: seq<ProductId>) {
    forall k :: 0 <= k < |found| ==> Available(catalog, found[k]) && Requests(lines, found[k])
  }

  /** What the products a lookup found cost: each one's price times its first quantity. */
  function SumOver(catalog: Catalog, lines: seq<LineItem>, found: seq<ProductId>): (sum: nat)
    requires Priced(catalog, lines, found)
  {
    if found == [] then 0
    else
      var last := found[|found| - 1];
      SumOver(catalog, lines, found[..|found| - 1]) + catalog[last].price * FirstQuantity(lines, last)
  }

  /** The total a request should be charged, stated over the request alone: a line counts
      when its product is available and no earlier line names the same product. */
  function RequestTotal(catalog: Catalog, lines: seq<LineItem>): (total: nat) {
    if lines == [] then 0
    else
      var init, last := lines[..|lines| - 1], lines[|lines| - 1];
      RequestTotal(catalog, init)
        + (if Available(catalog, last.id) && !Requests(init, last.id)
           then catalog[last.id].price * last.quantity else 0)
  }

  /** Adding a line adds its price times its quantity when it names an available product
      not requested before, and nothing when the product is inactive, missing or repeated. */
  lemma AppendLine(catalog: Catalog, lines: seq<LineItem>, l: LineItem)
    ensures !Available(catalog, l.id) || Requests(lines, l.id) ==>
              RequestTotal(catalog, lines + [l]) == RequestTotal(catalog, lines)
    ensures Available(catalog, l.id) && !Requests(lines, l.id) ==>
              RequestTotal(catalog, lines + [l]) == RequestTotal(catalog, lines) + catalog[l.id].price * l.quantity
  {
  }

  /** A request naming no available product costs nothing. */
  lemma {:induction false} NothingAvailableCostsNothing(catalog: Catalog, lines: seq<LineItem>)
    requires forall i :: 0 <= i < |lines| ==> !Available(catalog, lines[i].id)
    ensures RequestTotal(catalog, lines) == 0
  {
    if lines != [] {
      NothingAvailableCostsNothing(catalog, lines[..|lines| - 1]);
    }
  }

  /** The products the lookup finds for the first `n` ids are priced. */
  lemma FoundPriced(catalog: Catalog, lines: seq<LineItem>, ids: seq<ProductId>, n: nat)
    requires ids == Ids(lines) && n <= |lines|
    ensures Priced(catalog, lines, FindByIds(catalog, ids[..n]))
  {
  }

  /** A line names a product of an earlier line exactly when its id is among the earlier ids. */
  lemma RequestsPrefix(lines: seq<LineItem>, n: nat, id: ProductId)
    requires n <= |lines|
    ensures Requests(lines[..n], id) <==> id in Ids(lines)[..n]
  {
    if Requests(lines[..n], id) {
      var j :| 0 <= j < n && lines[..n][j].id == id;
      assert Ids(lines)[..n][j] == id;
    }
    if id in Ids(lines)[..n] {
      var j :| 0 <= j < n && Ids(lines)[..n][j] == id;
      assert lines[..n][j].id == id;
    }
  }

  /** Summing over one more found product adds its price times its first quantity. */
  lemma SumOverAppend(catalog: Catalog, lines: seq<LineItem>, found: seq<ProductId>, id: ProductId)
    requires Priced(catalog, lines, found + [id])
    ensures Priced(catalog, lines, found) && Available(catalog, id) && Requests(lines, id)
    ensures SumOver(catalog, lines, found + [id])
            == SumOver(catalog, lines, found) + catalog[id].price * FirstQuantity(lines, id)
  {
    assert (found + [id])[..|found|] == found;
    assert (found + [id])[|found|] == id;
  }

  /** Summing over what the lookup finds for the first `n` lines gives the reference total of
      those lines. */
  lemma {:induction false} FoundTotalUpTo(catalog: Catalog, lines: seq<LineItem>, n: nat)
    requires n <= |lines|
    ensures Priced(catalog, lines, FindByIds(catalog, Ids(lines)[..n]))
    ensures SumOver(catalog, lines, FindByIds(catalog, Ids(lines)[..n])) == RequestTotal(catalog, lines[..n])
  {
    var ids := Ids(lines);
    FoundPriced(catalog, lines, ids, n);
    if n > 0 {
      FoundTotalUpTo(catalog, lines, n - 1);
      var id := lines[n - 1].id;
      assert ids[..n][..n - 1] == ids[..n - 1];
      assert ids[..n][n - 1] == id;
      assert lines[..n][..n - 1] == lines[..n - 1];
      RequestsPrefix(lines, n - 1, id);
      if Available(catalog, id) && id !in ids[..n - 1] {
        SumOverAppend(catalog, lines, FindByIds(catalog, ids[..n - 1]), id);
        FirstQuantityAt(lines, n - 1);
      }
    }
  }

  /** The total over the products the lookup finds is the reference total of the request. */
  lemma FoundTotal(catalog: Catalog, lines: seq<LineItem>)
    ensures Priced(catalog, lines, FindByIds(catalog, Ids(lines)))
    ensures SumOver(catalog, lines, FindByIds(catalog, Ids(lines))) == RequestTotal(catalog, lines)
  {
    FoundTotalUpTo(catalog, lines, |lines|);
    assert Ids(lines)[..|lines|] == Ids(lines);
    assert lines[..|lines|] == lines;
  }

  /** The second loop of `makeInvoice`: add each found product's price times its quantity. */
  method ComputeTotal(catalog: Catalog, lines: seq<LineItem>, found: seq<ProductId>) returns (total: nat)
    requires Priced(catalog, lines, found)
    ensures total == SumOver(catalog, lines, found)
    ensures found == FindByIds(catalog, Ids(lines)) ==> total == RequestTotal(catalog, lines)
  {
    total := 0;
    for k := 0 to |found|
      invariant total == SumOver(catalog, lines, found[..k])
    {
      assert found[..k + 1][..k] == found[..k];
      var product := found[k];
      total := total + catalog[product].price * FirstQuantity(lines, product);
    }
    assert found[..|found|] == found;
    if found == FindByIds(catalog, Ids(lines)) {
      FoundTotal(catalog, lines);
    }
  }

  /** The item created for one found product. */
  function ItemOf(catalog: Catalog, lines: seq<LineItem>, product: ProductId): (item: InvoiceItem)
    requires Available(catalog, product) && Requests(lines, product)
  {
    var quantity := FirstQuantity(lines, product);
    InvoiceItem(product, quantity, quantity * catalog[product].price)
  }

  /** The items the third loop of `makeInvoice` creates: one per found product, in order. */
  function ItemsFor(catalog: Catalog, lines: seq<LineItem>, found: seq<ProductId>): (items: seq<InvoiceItem>)
    requires Priced(catalog, lines, found)
    ensures |items| == |found|
    ensures forall k :: 0 <= k < |found| ==>
              items[k].product == found[k] && items[k].quantity == FirstQuantity(lines, found[k])
              && items[k].subtotal == items[k].quantity * catalog[found[k]].price
  {
    if found == [] then []
    else ItemsFor(catalog, lines, found[..|found| - 1]) + [ItemOf(catalog, lines, found[|found| - 1])]
  }

  /** The sum of the subtotals of some items. */
  function SumSubtotals(items: seq<InvoiceItem>): (sum: nat) {
    if items == [] then 0 else SumSubtotals(items[..|items| - 1]) + items[|items| - 1].subtotal
  }

  /** The items' subtotals add up to the sum the total was computed from. */
  lemma {:induction false} SubtotalsMatch(catalog: Catalog, lines: seq<LineItem>, found: seq<ProductId>)
    requires Priced(catalog, lines, found)
    ensures SumSubtotals(ItemsFor(catalog, lines, found)) == SumOver(catalog, lines, found)
  {
    if found != [] {
      var items := ItemsFor(catalog, lines, found);
      var init := found[..|found| - 1];
      assert items[..|items| - 1] == ItemsFor(catalog, lines, init);
      SubtotalsMatch(catalog, lines, init);
    }
  }

  /** An invoice's items, once created, add up to its total; items exist only for an invoice
      the gateway accepted. */
  predicate ItemsConsistent(inv: Invoice) {
    inv.items != [] ==> inv.zcTransactionId.Some? && SumSubtotals(inv.items) == inv.total
  }
}
