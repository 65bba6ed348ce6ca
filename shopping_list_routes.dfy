/** The owner-scoped shopping-list handlers, over an in-memory store of
    lists that stands for the document database. Authentication has
    already run, so every handler receives the requesting client's id. */
module ShoppingListRoutes {
  import opened ShoppingListModel

  const ListCreated := "Liste d'achat créée"
  const ListNotFound := "Liste non trouvée"
  const FieldsRequired := "Produit et quantité requis"
  const ItemAdded := "Médicament ajouté à la liste"
  const ItemRemoved := "Médicament retiré de la liste"
  const StatusUpdated := "Statut mis à jour"
  const ListDeleted := "Liste supprimée avec succès"
  /** The error a failed schema validation on save reports. */
  const ValidationFailed := "ShoppingList validation failed"

  /** The JSON body of a response. */
  datatype Body =
    | WithList(message: string, list: ShoppingList)
    | WithTotal(list: ShoppingList, total: int)
    | WithListAndTotal(message: string, list: ShoppingList, total: int)
    | Lists(lists: seq<ShoppingList>)
    | MessageOnly(message: string)
    | Error(error: string)

  datatype Response = Response(code: nat, body: Body)

  const NotFound := Response(404, Error(ListNotFound))

  /** `!productId || !quantity`: a missing product id, or a quantity that is
      missing or 0. */
  predicate MissingFields(productId: Option<ProductId>, quantity: Option<int>)
  {
    productId.None? || quantity.None? || quantity.value == 0
  }

  /** Lists ordered newest first. */
  predicate NewestFirst(lists: seq<ShoppingList>)
  {
    forall i, j :: 0 <= i < j < |lists| ==> lists[i].createdAt >= lists[j].createdAt
  }

  /** How many lists at the front of a newest-first sequence are strictly
      newer than `list`: where `list` goes. */
  function NewerCount(lists: seq<ShoppingList>, list: ShoppingList): (k: nat)
    ensures k <= |lists|
    ensures forall i :: 0 <= i < k ==> lists[i].createdAt > list.createdAt
    ensures k < |lists| ==> lists[k].createdAt <= list.createdAt
  {
    if lists == [] || lists[0].createdAt <= list.createdAt then 0
    else 1 + NewerCount(lists[1..], list)
  }

  /** Places `list` in a newest-first sequence, after the lists that are
      strictly newer and before all others. */
  function InsertNewestFirst(lists: seq<ShoppingList>, list: ShoppingList): (r: seq<ShoppingList>)
    requires NewestFirst(lists)
    ensures NewestFirst(r)
    ensures |r| == |lists| + 1
    ensures multiset(r) == multiset(lists) + multiset{list}
  {
    var k := NewerCount(lists, list);
    var newer, rest := lists[..k], lists[k..];
    assert lists == newer + rest;
    assert multiset(lists) == multiset(newer) + multiset(rest);
    SpliceNewestFirst(newer, list, rest);
    newer + [list] + rest
  }

  /** Placing `list` between the strictly newer lists and the rest keeps a
      newest-first sequence newest first. */
  lemma {:induction false} SpliceNewestFirst(newer: seq<ShoppingList>, list: ShoppingList, rest: seq<ShoppingList>)
    requires NewestFirst(newer + rest)
    requires forall i :: 0 <= i < |newer| ==> newer[i].createdAt > list.createdAt
    requires rest != [] ==> rest[0].createdAt <= list.createdAt
    ensures NewestFirst(newer + [list] + rest)
  {
    var s, r, n := newer + rest, newer + [list] + rest, |newer|;
    forall i, j | 0 <= i < j < |r| ensures r[i].createdAt >= r[j].createdAt {
      if j < n {
        assert r[i] == s[i] && r[j] == s[j];
      } else if j == n {
        assert r[i] == newer[i];
      } else if i < n {
        assert r[i] == s[i] && r[j] == s[j - 1];
      } else if i == n {
        assert r[j] == s[j - 1] && s[n] == rest[0];
      } else {
        assert r[i] == s[i - 1] && r[j] == s[j - 1];
      }
    }
  }

  /** The store of lists, keyed by list id, with a supply of fresh ids for
      lists and lines. */
  class ListStore {
    var lists: map<ListId, ShoppingList>
    var nextId: nat

    /** Every stored list sits under its own id, every id in use is below
        `nextId`, and every saved list has at most one line per product,
        distinct line ids and quantities of at least 1. */
    ghost predicate Valid()
      reads this
    {
      forall id :: id in lists ==>
        lists[id].id == id && id < nextId
        && UniqueProducts(lists[id].items) && UniqueLineIds(lists[id].items)
        && LineIdsBelow(lists[id].items, nextId) && SchemaValid(lists[id].items)
    }

    constructor ()
      ensures Valid() && lists == map[] && nextId == 0
    {
      lists := map[];
      nextId := 0;
    }

    /** `findOne({_id: id, client: client})`: a list is found only when it
        exists AND belongs to the requesting client. */
    predicate Owns(id: ListId, client: ClientId)
      reads this
    {
      id in lists && lists[id].client == client
    }

    /** The save of a loaded document: schema validation first; the document
        is written back only when every quantity is at least 1. */
    method Save(doc: ListDocument) returns (saved: bool)
      requires Valid() && doc.id in lists && doc.id < nextId
      requires UniqueProducts(doc.items) && UniqueLineIds(doc.items) && LineIdsBelow(doc.items, nextId)
      modifies this`lists
      ensures Valid()
      ensures saved == SchemaValid(doc.items)
      ensures lists == if saved then old(lists)[doc.id := doc.Record()] else old(lists)
    {
      saved := forall k | 0 <= k < |doc.items| :: doc.items[k].quantity >= 1;
      if saved {
        lists := lists[doc.id := doc.Record()];
      }
    }

    /** POST /: creates an empty draft list owned by the requester, created
        at time `now`. */
    method Create(client: ClientId, now: int) returns (r: Response)
      requires Valid()
      modifies this
      ensures Valid()
      ensures var list := ShoppingList(old(nextId), client, now, Draft, []);
        lists == old(lists)[old(nextId) := list]
        && old(nextId) !in old(lists)
        && nextId == old(nextId) + 1
        && r == Response(201, WithList(ListCreated, list))
    {
      var doc := new ListDocument.CreateList(nextId, client, now);
      nextId := nextId + 1;
      lists := lists[doc.id := doc.Record()];
      r := Response(201, WithList(ListCreated, doc.Record()));
    }

    /** GET /: 200 with exactly the requester's lists, newest first. */
    method ListOwned(client: ClientId) returns (r: Response)
      requires Valid()
      ensures r.code == 200 && r.body.Lists?
      ensures var result := r.body.lists;
        (forall i :: 0 <= i < |result| ==>
           result[i].id in lists && lists[result[i].id] == result[i] && result[i].client == client)
        && (forall id :: id in lists && lists[id].client == client ==>
              exists i :: 0 <= i < |result| && result[i].id == id)
        && (forall i, j :: 0 <= i < j < |result| ==> result[i].id != result[j].id)
        && NewestFirst(result)
    {
      var result: seq<ShoppingList> := [];
      var rest := lists.Keys;
      while rest != {}
        invariant rest <= lists.Keys
        invariant forall l :: l in result ==>
          l.id in lists && l.id !in rest && lists[l.id] == l && l.client == client
        invariant forall id :: id in lists && id !in rest && lists[id].client == client ==>
          lists[id] in result
        invariant forall i, j :: 0 <= i < j < |result| ==> result[i].id != result[j].id
        invariant NewestFirst(result)
        decreases |rest|
      {
        var id :| id in rest;
        if lists[id].client == client {
          InsertKeepsIdsDistinct(result, lists[id]);
          result := InsertNewestFirst(result, lists[id]);
        }
        rest := rest - {id};
      }
      forall i | 0 <= i < |result|
        ensures result[i].id in lists && lists[result[i].id] == result[i] && result[i].client == client
      {
        assert result[i] in result;
      }
      forall id | id in lists && lists[id].client == client
        ensures exists i :: 0 <= i < |result| && result[i].id == id
      {
        assert lists[id] in result;
      }
      r := Response(200, Lists(result));
    }

    /** GET /:id: the list and its total, or 404 when the list is missing or
        belongs to someone else. */
    method Get(id: ListId, client: ClientId) returns (r: Response)
      ensures Owns(id, client) ==> r == Response(200, WithTotal(lists[id], Total(lists[id].items)))
      ensures !Owns(id, client) ==> r == NotFound
    {
      if !Owns(id, client) {
        return NotFound;
      }
      var list := lists[id];
      r := Response(200, WithTotal(list, Total(list.items)));
    }

    /** POST /:id/items: validates the request, looks the list up, runs
        addItem with a fresh line id and the catalog's current price, and
        answers with the updated list and its total. */
    method AddItem(id: ListId, client: ClientId, productId: Option<ProductId>, quantity: Option<int>, catalog: Catalog)
      returns (r: Response)
      requires Valid()
      modifies this
      ensures Valid()
      ensures MissingFields(productId, quantity) ==>
        r == Response(400, Error(FieldsRequired)) && lists == old(lists) && nextId == old(nextId)
      ensures !MissingFields(productId, quantity) && !old(Owns(id, client)) ==>
        r == NotFound && lists == old(lists) && nextId == old(nextId)
      ensures !MissingFields(productId, quantity) && old(Owns(id, client)) && productId.value !in catalog ==>
        r == Response(500, Error(ProductNotFound)) && lists == old(lists) && nextId == old(nextId)
      ensures !MissingFields(productId, quantity) && old(Owns(id, client)) && productId.value in catalog ==>
        var p := productId.value;
        var updated := old(lists[id]).(items := AddedItems(old(lists[id].items), p, quantity.value, catalog[p], old(nextId)));
        nextId == old(nextId) + 1
        && if SchemaValid(updated.items) then
             lists == old(lists)[id := updated] && r == Response(200, WithListAndTotal(ItemAdded, updated, Total(updated.items)))
           else
             lists == old(lists) && r == Response(500, Error(ValidationFailed))
    {
      if productId.None? || quantity.None? || quantity.value == 0 {
        return Response(400, Error(FieldsRequired));
      }
      if !Owns(id, client) {
        return NotFound;
      }
      var doc := new ListDocument.Load(lists[id]);
      var error := doc.AddItem(productId.value, quantity.value, catalog, nextId);
      if error.Some? {
        return Response(500, Error(error.value));
      }
      AddKeepsLinesDistinct(lists[id].items, productId.value, quantity.value, catalog[productId.value], nextId);
      nextId := nextId + 1;
      var saved := Save(doc);
      if !saved {
        return Response(500, Error(ValidationFailed));
      }
      r := Response(200, WithListAndTotal(ItemAdded, doc.Record(), Total(doc.items)));
    }

    /** DELETE /:id/items/:itemId: drops the lines with that id (none when
        the id is absent) and answers with the updated list and its total. */
    method RemoveItem(id: ListId, client: ClientId, itemId: LineId) returns (r: Response)
      requires Valid()
      modifies this`lists
      ensures Valid()
      ensures !old(Owns(id, client)) ==> r == NotFound && lists == old(lists)
      ensures old(Owns(id, client)) ==>
        var updated := old(lists[id]).(items := Without(old(lists[id].items), itemId));
        lists == old(lists)[id := updated]
        && r == Response(200, WithListAndTotal(ItemRemoved, updated, Total(updated.items)))
    {
      if !Owns(id, client) {
        return NotFound;
      }
      var doc := new ListDocument.Load(lists[id]);
      doc.RemoveItem(itemId);
      WithoutKeepsInvariant(lists[id].items, itemId, nextId);
      var saved := Save(doc);
      assert saved;
      r := Response(200, WithListAndTotal(ItemRemoved, doc.Record(), Total(doc.items)));
    }

    /** PATCH /:id/status: overwrites the status of the matched list, with no
        check of the transition. */
    method SetStatus(id: ListId, client: ClientId, status: Status) returns (r: Response)
      requires Valid()
      modifies this`lists
      ensures Valid()
      ensures !old(Owns(id, client)) ==> r == NotFound && lists == old(lists)
      ensures old(Owns(id, client)) ==>
        lists == old(lists)[id := old(lists[id]).(status := status)]
        && r == Response(200, WithList(StatusUpdated, lists[id]))
    {
      if !Owns(id, client) {
        return NotFound;
      }
      lists := lists[id := lists[id].(status := status)];
      r := Response(200, WithList(StatusUpdated, lists[id]));
    }

    /** DELETE /:id: removes the matched list and nothing else. Afterwards
        the requester owns no list under `id`, so a repeat answers 404. */
    method Delete(id: ListId, client: ClientId) returns (r: Response)
      requires Valid()
      modifies this`lists
      ensures Valid()
      ensures !old(Owns(id, client)) ==> r == NotFound && lists == old(lists)
      ensures old(Owns(id, client)) ==>
        lists == old(lists) - {id} && r == Response(200, MessageOnly(ListDeleted))
      ensures !Owns(id, client)
    {
      if !Owns(id, client) {
        return NotFound;
      }
      lists := lists - {id};
      r := Response(200, MessageOnly(ListDeleted));
    }
  }

  /** Inserting a list whose id is not yet present keeps the ids distinct
      and adds exactly that list. */
  lemma {:induction false} InsertKeepsIdsDistinct(lists: seq<ShoppingList>, list: ShoppingList)
    requires NewestFirst(lists)
    requires forall i, j :: 0 <= i < j < |lists| ==> lists[i].id != lists[j].id
    requires forall i :: 0 <= i < |lists| ==> lists[i].id != list.id
    ensures var r := InsertNewestFirst(lists, list);
      (forall i, j :: 0 <= i < j < |r| ==> r[i].id != r[j].id)
      && forall l :: l in r <==> l in lists || l == list
  {
    var k := NewerCount(lists, list);
    var r := InsertNewestFirst(lists, list);
    assert r == lists[..k] + [list] + lists[k..];
    forall i, j | 0 <= i < j < |r| ensures r[i].id != r[j].id {
      if j < k {
        assert r[i] == lists[i] && r[j] == lists[j];
      } else if j == k {
        assert r[i] == lists[i];
      } else if i < k {
        assert r[i] == lists[i] && r[j] == lists[j - 1];
      } else if i == k {
        assert r[j] == lists[j - 1];
      } else {
        assert r[i] == lists[i - 1] && r[j] == lists[j - 1];
      }
    }
    forall l ensures l in r <==> l in lists || l == list {
      assert l in r <==> l in multiset(r);
      assert l in lists <==> l in multiset(lists);
    }
  }

  /** The add-item refusals of the list routes' test suite, followed through
      the handlers' contracts: a new list is an empty draft, and a request
      without a product or with quantity 0 is refused with 400. */
  method RefusedAddWalkthrough(owner: ClientId, product: ProductId, price: nat)
  {
    var store := new ListStore();
    var catalog: Catalog := map[product := price];
    var created := store.Create(owner, 1);
    var id := created.body.list.id;
    assert created.body.list.status == Draft && created.body.list.items == [];

    var rejected := store.AddItem(id, owner, None, Some(2), catalog);
    assert rejected.code == 400;
    var zero := store.AddItem(id, owner, Some(product), Some(0), catalog);
    assert zero.code == 400;
  }

  /** Adding the same product twice leaves a single line with the summed
      quantity, and the reported total is that quantity times the price. */
  method AddTwiceWalkthrough(owner: ClientId, product: ProductId, price: nat)
  {
    var store := new ListStore();
    var catalog: Catalog := map[product := price];
    var created := store.Create(owner, 1);
    var id := created.body.list.id;

    assert store.Owns(id, owner) && store.lists[id].items == [];
    var line := LineItem(id + 1, product, 2, price);
    assert AddedItems([], product, 2, price, id + 1) == [line];
    var first := store.AddItem(id, owner, Some(product), Some(2), catalog);
    assert first.body.list.items == [line];
    assert store.Owns(id, owner) && store.lists[id].items == [line];
    LineOfFirst([line], product, 0);
    assert AddedItems([line], product, 1, price, id + 2) == [line.(quantity := 3)];
    var second := store.AddItem(id, owner, Some(product), Some(1), catalog);
    assert second.body.list.items == [line.(quantity := 3)];
    assert second.body.total == 3 * price;
  }

  /** The other flows: a list of one client is invisible to another, its
      status reads back as set, and a second delete answers 404. */
  method OwnershipWalkthrough(owner: ClientId, other: ClientId)
    requires owner != other
  {
    var store := new ListStore();
    var created := store.Create(owner, 1);
    var id := created.body.list.id;

    var foreign := store.Get(id, other);
    assert foreign == NotFound;

    var confirmed := store.SetStatus(id, owner, Confirmed);
    assert confirmed.code == 200 && store.lists[id].status == Confirmed;

    var stolen := store.Delete(id, other);
    assert stolen == NotFound && id in store.lists;
    var deleted := store.Delete(id, owner);
    assert deleted.code == 200;
    var again := store.Delete(id, owner);
    assert again == NotFound;
  }
}
