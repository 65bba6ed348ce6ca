/** The shopping-list engine of the ordering backend: line items, the list
    document, merge-or-append insertion, removal by line id and the total.

    Identifiers (Mongo ObjectIds) are natural numbers, and prices are
    whole cents, so every total is exact. */
module ShoppingListModel {

  type ClientId = nat
  type ProductId = nat
  type ListId = nat
  type LineId = nat

  /** The product catalog as the engine sees it: the current unit price of
      every existing product (Product.prixUnitaire, which the product schema
      keeps at 0 or more). */
  type Catalog = map<ProductId, nat>

  datatype Option<T> = None | Some(value: T)

  /** The five values of the list schema's status enum. */
  datatype Status = Draft | Pending | Confirmed | Delivered | Cancelled

  /** One line of a list: the product, how many, and the unit price captured
      when the line was created. */
  datatype LineItem = LineItem(id: LineId, product: ProductId, quantity: int, unitPrice: nat)

  /** A stored shopping list. */
  datatype ShoppingList = ShoppingList(
    id: ListId,
    client: ClientId,
    createdAt: int,
    status: Status,
    items: seq<LineItem>)

  /** Error raised by addItem when the product does not exist. */
  const ProductNotFound := "Produit non trouvé"

  // ---------------------------------------------------------------------
  // Schema constraints

  /** The line-item schema's `min: 1` on quantity, which every save checks. */
  predicate SchemaValid(items: seq<LineItem>)
  {
    forall k :: 0 <= k < |items| ==> items[k].quantity >= 1
  }

  /** No two lines of the list refer to the same product. */
  predicate UniqueProducts(items: seq<LineItem>)
  {
    forall i, j :: 0 <= i < j < |items| ==> items[i].product != items[j].product
  }

  /** No two lines of the list carry the same line id. */
  predicate UniqueLineIds(items: seq<LineItem>)
  {
    forall i, j :: 0 <= i < j < |items| ==> items[i].id != items[j].id
  }

  /** Every line id was handed out before `bound`, so `bound` is still fresh. */
  predicate LineIdsBelow(items: seq<LineItem>, bound: nat)
  {
    forall k :: 0 <= k < |items| ==> items[k].id < bound
  }

  // ---------------------------------------------------------------------
  // Totals

  /** lineTotal: quantity times the captured unit price. */
  function LineTotal(line: LineItem): (r: int)
  {
    line.quantity * line.unitPrice
  }

  /** calculateTotal: the left-to-right reduce over the lines, starting at 0. */
  function Total(items: seq<LineItem>): (r: int)
  {
    if items == [] then 0 else Total(items[..|items| - 1]) + LineTotal(items[|items| - 1])
  }

  lemma {:induction false} TotalAppend(a: seq<LineItem>, b: seq<LineItem>)
    ensures Total(a + b) == Total(a) + Total(b)
    decreases |b|
  {
    if b == [] {
      assert a + b == a;
    } else {
      var c := a + b;
      assert c[..|c| - 1] == a + b[..|b| - 1];
      assert c[|c| - 1] == b[|b| - 1];
      TotalAppend(a, b[..|b| - 1]);
    }
  }

  /** The total is the sum of the line totals in any split of the list: the
      first line plus the rest. */
  lemma {:induction false} TotalCons(line: LineItem, rest: seq<LineItem>)
    ensures Total([line] + rest) == LineTotal(line) + Total(rest)
  {
    TotalAppend([line], rest);
    assert [line][..0] == [];
  }

  /** Replacing one line changes the total by exactly the difference of the
      two line totals. */
  lemma {:induction false} TotalUpdate(items: seq<LineItem>, k: nat, line: LineItem)
    requires k < |items|
    ensures Total(items[k := line]) == Total(items) - LineTotal(items[k]) + LineTotal(line)
  {
    assert items == items[..k] + [items[k]] + items[k + 1..];
    assert items[k := line] == items[..k] + [line] + items[k + 1..];
    TotalAppend(items[..k] + [items[k]], items[k + 1..]);
    TotalAppend(items[..k] + [line], items[k + 1..]);
    TotalAppend(items[..k], [items[k]]);
    TotalAppend(items[..k], [line]);
    TotalCons(items[k], []);
    TotalCons(line, []);
    assert [items[k]] + [] == [items[k]];
    assert [line] + [] == [line];
  }

  /** With no negative quantity on the list (as the schema guarantees for a
      saved list) the total is never negative. */
  lemma {:induction false} TotalNonNegative(items: seq<LineItem>)
    requires forall k :: 0 <= k < |items| ==> items[k].quantity >= 0
    ensures Total(items) >= 0
  {
    if items != [] {
      TotalNonNegative(items[..|items| - 1]);
    }
  }

  // ---------------------------------------------------------------------
  // Finding the line of a product

  predicate HasProduct(items: seq<LineItem>, p: ProductId)
  {
    exists k :: 0 <= k < |items| && items[k].product == p
  }

  /** The first line that refers to product `p`: the element `items.find`
      returns. */
  function LineOf(items: seq<LineItem>, p: ProductId): (k: nat)
    requires HasProduct(items, p)
    ensures k < |items| && items[k].product == p
    ensures forall j :: 0 <= j < k ==> items[j].product != p
  {
    if items[0].product == p then 0
    else
      assert HasProduct(items[1..], p) by {
        var k :| 0 <= k < |items| && items[k].product == p;
        assert items[1..][k - 1].product == p;
      }
      1 + LineOf(items[1..], p)
  }

  /** `this.items.find(item => item.product === productId)`, as a linear scan
      that answers the index of the first matching line, or -1. */
  method FindLine(items: seq<LineItem>, p: ProductId) returns (k: int)
    ensures k == -1 <==> !HasProduct(items, p)
    ensures k != -1 ==> HasProduct(items, p) && k == LineOf(items, p)
  {
    k := 0;
    while k < |items| && items[k].product != p
      invariant 0 <= k <= |items|
      invariant forall j :: 0 <= j < k ==> items[j].product != p
    {
      k := k + 1;
    }
    if k == |items| {
      k := -1;
    }
  }

  /** A matching line with no match before it is the line `find` returns. */
  lemma {:induction false} LineOfFirst(items: seq<LineItem>, p: ProductId, k: nat)
    requires k < |items| && items[k].product == p
    requires forall j :: 0 <= j < k ==> items[j].product != p
    ensures HasProduct(items, p) && LineOf(items, p) == k
  {
  }

  /** With at most one line per product, the first line of `p` is its only
      line. */
  lemma {:induction false} LineOfUnique(items: seq<LineItem>, p: ProductId, k: nat)
    requires UniqueProducts(items)
    requires k < |items| && items[k].product == p
    ensures HasProduct(items, p) && LineOf(items, p) == k
  {
    LineOfFirst(items, p, k);
  }

  // ---------------------------------------------------------------------
  // addItem: merge or append

  /** The lines after addItem(p, quantity) once the product's current
      catalog price `price` is known: the existing line of `p` gets its
      quantity raised; otherwise a new line with id `freshId` is appended. */
  function AddedItems(items: seq<LineItem>, p: ProductId, quantity: int, price: nat, freshId: LineId): (r: seq<LineItem>)
  {
    if HasProduct(items, p) then
      var k := LineOf(items, p);
      items[k := items[k].(quantity := items[k].quantity + quantity)]
    else
      items + [LineItem(freshId, p, quantity, price)]
  }

  /** Adding a product that is already on the list raises that line's
      quantity by exactly `quantity`, keeps its id and captured price, keeps
      the number of lines and leaves every other line as it was. */
  lemma {:induction false} AddMergesExistingLine(items: seq<LineItem>, p: ProductId, quantity: int, price: nat, freshId: LineId, k: nat)
    requires UniqueProducts(items)
    requires k < |items| && items[k].product == p
    ensures var r := AddedItems(items, p, quantity, price, freshId);
      |r| == |items|
      && r[k].quantity == items[k].quantity + quantity
      && r[k].id == items[k].id && r[k].product == p && r[k].unitPrice == items[k].unitPrice
      && forall j :: 0 <= j < |items| && j != k ==> r[j] == items[j]
  {
    LineOfUnique(items, p, k);
  }

  /** Adding a product that is not on the list appends exactly one line at
      the end, with that product, that quantity and the current catalog
      price, and leaves the earlier lines unchanged. */
  lemma {:induction false} AddAppendsNewLine(items: seq<LineItem>, p: ProductId, quantity: int, price: nat, freshId: LineId)
    requires !HasProduct(items, p)
    ensures var r := AddedItems(items, p, quantity, price, freshId);
      |r| == |items| + 1
      && r[..|items|] == items
      && r[|items|] == LineItem(freshId, p, quantity, price)
  {
  }

  /** A captured price never changes: every existing line keeps its id,
      product and unit price, in the same position. */
  lemma {:induction false} AddKeepsCapturedPrices(items: seq<LineItem>, p: ProductId, quantity: int, price: nat, freshId: LineId)
    ensures var r := AddedItems(items, p, quantity, price, freshId);
      |r| >= |items|
      && forall k :: 0 <= k < |items| ==>
           r[k].id == items[k].id && r[k].product == items[k].product && r[k].unitPrice == items[k].unitPrice
  {
  }

  /** addItem keeps at most one line per product and distinct line ids, as
      long as the fresh id is above every id already used. */
  lemma {:induction false} AddKeepsLinesDistinct(items: seq<LineItem>, p: ProductId, quantity: int, price: nat, freshId: LineId)
    requires UniqueProducts(items) && UniqueLineIds(items) && LineIdsBelow(items, freshId)
    ensures var r := AddedItems(items, p, quantity, price, freshId);
      UniqueProducts(r) && UniqueLineIds(r) && LineIdsBelow(r, freshId + 1)
  {
  }

  /** With a positive quantity, a list whose quantities are all at least 1
      still has all quantities at least 1 after addItem. */
  lemma {:induction false} AddKeepsSchemaValid(items: seq<LineItem>, p: ProductId, quantity: int, price: nat, freshId: LineId)
    requires SchemaValid(items) && quantity >= 1
    ensures SchemaValid(AddedItems(items, p, quantity, price, freshId))
  {
  }

  /** The total grows by `quantity` times the price captured on the line of
      `p`: the old line's price when the product was there, the current
      catalog price otherwise. */
  lemma {:induction false} AddTotal(items: seq<LineItem>, p: ProductId, quantity: int, price: nat, freshId: LineId)
    ensures Total(AddedItems(items, p, quantity, price, freshId))
         == Total(items) + quantity * (if HasProduct(items, p) then items[LineOf(items, p)].unitPrice else price)
  {
    if HasProduct(items, p) {
      var k := LineOf(items, p);
      TotalUpdate(items, k, items[k].(quantity := items[k].quantity + quantity));
    } else {
      TotalAppendLine(items, LineItem(freshId, p, quantity, price));
    }
  }

  /** Appending one line adds its line total. */
  lemma {:induction false} TotalAppendLine(items: seq<LineItem>, line: LineItem)
    ensures Total(items + [line]) == Total(items) + LineTotal(line)
  {
    var r := items + [line];
    assert r[..|r| - 1] == items;
  }

  /** Adding `a` then `b` of the same product gives the same lines, hence the
      same total, as adding `a + b` once, whatever the catalog price is at the
      second call. */
  lemma {:induction false} AddTwiceIsAddOnce(items: seq<LineItem>, p: ProductId, a: int, b: int, price: nat, laterPrice: nat, freshId: LineId, laterId: LineId)
    ensures AddedItems(AddedItems(items, p, a, price, freshId), p, b, laterPrice, laterId)
         == AddedItems(items, p, a + b, price, freshId)
    ensures Total(AddedItems(AddedItems(items, p, a, price, freshId), p, b, laterPrice, laterId))
         == Total(AddedItems(items, p, a + b, price, freshId))
  {
    var once := AddedItems(items, p, a, price, freshId);
    if HasProduct(items, p) {
      var k := LineOf(items, p);
      LineOfFirst(once, p, k);
    } else {
      LineOfFirst(once, p, |items|);
    }
  }

  // ---------------------------------------------------------------------
  // removeItem: filter by line id

  /** The lines after removeItem(id): those whose id differs from `id`, in
      their original order. */
  function Without(items: seq<LineItem>, id: LineId): (r: seq<LineItem>)
  {
    if items == [] then []
    else (if items[0].id == id then [] else [items[0]]) + Without(items[1..], id)
  }

  /** A line survives removal exactly when it was on the list and carries
      another id. */
  lemma {:induction false} WithoutMembers(items: seq<LineItem>, id: LineId)
    ensures forall line :: line in Without(items, id) <==> line in items && line.id != id
  {
    if items != [] {
      WithoutMembers(items[1..], id);
      assert items == [items[0]] + items[1..];
    }
  }

  /** Removal works piecewise, so kept lines keep their relative order. */
  lemma {:induction false} WithoutAppend(a: seq<LineItem>, b: seq<LineItem>, id: LineId)
    ensures Without(a + b, id) == Without(a, id) + Without(b, id)
  {
    if a == [] {
      assert a + b == b;
    } else {
      assert (a + b)[1..] == a[1..] + b;
      WithoutAppend(a[1..], b, id);
    }
  }

  /** Removing an id that no line carries leaves the list as it was. */
  lemma {:induction false} WithoutAbsent(items: seq<LineItem>, id: LineId)
    requires forall k :: 0 <= k < |items| ==> items[k].id != id
    ensures Without(items, id) == items
  {
    if items != [] {
      WithoutAbsent(items[1..], id);
      assert items == [items[0]] + items[1..];
    }
  }

  /** Removing the same id twice is the same as removing it once. */
  lemma {:induction false} WithoutIdempotent(items: seq<LineItem>, id: LineId)
    ensures Without(Without(items, id), id) == Without(items, id)
  {
    var once := Without(items, id);
    WithoutMembers(items, id);
    forall k | 0 <= k < |once| ensures once[k].id != id {
      assert once[k] in once;
    }
    WithoutAbsent(once, id);
  }

  /** With distinct line ids, removing the id of line `k` drops exactly that
      line. */
  lemma {:induction false} WithoutOneLine(items: seq<LineItem>, k: nat)
    requires UniqueLineIds(items)
    requires k < |items|
    ensures Without(items, items[k].id) == items[..k] + items[k + 1..]
  {
    var id := items[k].id;
    var before, after := items[..k], items[k + 1..];
    var rest := [items[k]] + after;
    assert items == before + rest;
    WithoutAppend(before, rest, id);
    forall j | 0 <= j < |before| ensures before[j].id != id {
      assert before[j] == items[j];
    }
    WithoutAbsent(before, id);
    forall j | 0 <= j < |after| ensures after[j].id != id {
      assert after[j] == items[k + 1 + j];
    }
    WithoutAbsent(after, id);
    WithoutHead(items[k], after);
  }

  /** Removing the id of the first line drops that line. */
  lemma {:induction false} WithoutHead(line: LineItem, rest: seq<LineItem>)
    ensures Without([line] + rest, line.id) == Without(rest, line.id)
  {
    assert ([line] + rest)[1..] == rest;
  }

  /** With distinct line ids, removing the id of line `k` lowers the total
      by exactly that line's total. */
  lemma {:induction false} WithoutOneLineTotal(items: seq<LineItem>, k: nat)
    requires UniqueLineIds(items)
    requires k < |items|
    ensures Total(Without(items, items[k].id)) == Total(items) - LineTotal(items[k])
  {
    WithoutOneLine(items, k);
    var before, after := items[..k], items[k + 1..];
    assert items == before + ([items[k]] + after);
    TotalAppend(before, after);
    TotalAppend(before, [items[k]] + after);
    TotalCons(items[k], after);
  }

  /** Removal keeps every property of the stored lines: distinct products,
      distinct ids, ids below the bound and valid quantities. */
  lemma {:induction false} WithoutKeepsInvariant(items: seq<LineItem>, id: LineId, bound: nat)
    requires UniqueProducts(items) && UniqueLineIds(items) && LineIdsBelow(items, bound) && SchemaValid(items)
    ensures var r := Without(items, id);
      UniqueProducts(r) && UniqueLineIds(r) && LineIdsBelow(r, bound) && SchemaValid(r)
  {
    var r := Without(items, id);
    WithoutMembers(items, id);
    forall k | 0 <= k < |r| ensures r[k].id < bound && r[k].quantity >= 1 {
      assert r[k] in items;
    }
    if items != [] {
      var rest := Without(items[1..], id);
      WithoutKeepsInvariant(items[1..], id, bound);
      WithoutMembers(items[1..], id);
      forall j | 0 <= j < |rest|
        ensures rest[j].product != items[0].product && rest[j].id != items[0].id
      {
        assert rest[j] in items[1..];
      }
    }
  }

  // ---------------------------------------------------------------------
  // The list document

  /** A list document held in memory: createList builds one, the store
      loads one for each request, addItem and removeItem change its lines in
      place, and the store's save writes it back. */
  class ListDocument {
    const id: ListId
    const client: ClientId
    const createdAt: int
    var status: Status
    var items: seq<LineItem>

    /** createList: a new list of `client`, in status draft, with no lines. */
    constructor CreateList(id: ListId, client: ClientId, createdAt: int)
      ensures this.id == id && this.client == client && this.createdAt == createdAt
      ensures status == Draft && items == []
    {
      this.id := id;
      this.client := client;
      this.createdAt := createdAt;
      status := Draft;
      items := [];
    }

    /** Loads a stored list into a document. */
    constructor Load(list: ShoppingList)
      ensures Record() == list
    {
      id := list.id;
      client := list.client;
      createdAt := list.createdAt;
      status := list.status;
      items := list.items;
    }

    /** The value that saving the document stores. */
    function Record(): (r: ShoppingList)
      reads this
    {
      ShoppingList(id, client, createdAt, status, items)
    }

    /** addItem, up to its final save: an unknown product raises "Produit
        non trouvé" and changes nothing; otherwise the product's line is
        merged or a new line with `freshId` and the catalog price is
        appended. */
    method AddItem(productId: ProductId, quantity: int, catalog: Catalog, freshId: LineId) returns (error: Option<string>)
      modifies this`items
      ensures error.Some? <==> productId !in catalog
      ensures error.Some? ==> error.value == ProductNotFound && items == old(items)
      ensures productId in catalog ==> items == AddedItems(old(items), productId, quantity, catalog[productId], freshId)
    {
      if productId !in catalog {
        return Some(ProductNotFound);
      }
      var k := FindLine(items, productId);
      if k != -1 {
        items := items[k := items[k].(quantity := items[k].quantity + quantity)];
      } else {
        items := items + [LineItem(freshId, productId, quantity, catalog[productId])];
      }
      error := None;
    }

    /** removeItem, up to its final save: keeps the lines whose id is not
        `itemId`. */
    method RemoveItem(itemId: LineId)
      modifies this`items
      ensures items == Without(old(items), itemId)
    {
      items := Without(items, itemId);
    }
  }
}
