/**
 * The extension-point store as values: named points, each a list of
 * contributed items and the handler applied to them on every read.
 */
module ExtensionPoints {
  import opened Wrappers

  /** A contributed item (`[key: string]: any`); its contents are not modelled. */
  type Item

  /** The handler a point gets when none is given. */
  function Identity(item: Item): Item
  {
    item
  }

  datatype ExtensionPoint = ExtensionPoint(items: seq<Item>, handler: Item -> Item)

  /** The registry's `extensionPoints` table. */
  type Store = map<string, ExtensionPoint>

  /** `items.map(handler)`: a new list, the handler applied to each item in order. */
  function MapItems(items: seq<Item>, handler: Item -> Item): (r: seq<Item>)
    ensures |r| == |items|
    ensures forall i :: 0 <= i < |items| ==> r[i] == handler(items[i])
  {
    if items == [] then [] else [handler(items[0])] + MapItems(items[1..], handler)
  }

  /** `applyExtensionPoint` on the store: None for an unknown name, never an error. */
  function Apply(store: Store, name: string): (r: Option<seq<Item>>)
    ensures r.None? <==> name !in store
    ensures r.Some? ==> |r.value| == |store[name].items|
    ensures r.Some? ==> forall i :: 0 <= i < |r.value| ==> r.value[i] == store[name].handler(store[name].items[i])
  {
    if name !in store then None else Some(MapItems(store[name].items, store[name].handler))
  }

  /** The store after a successful `registerExtensionPoint`: the first registration wins. */
  function WithPoint(store: Store, name: string, handler: Item -> Item): (r: Store)
    ensures r.Keys == store.Keys + {name}
    ensures name in store ==> r[name] == store[name]
    ensures name !in store ==> r[name] == ExtensionPoint([], handler)
    ensures forall other :: other in store && other != name ==> r[other] == store[other]
  {
    if name in store then store else store[name := ExtensionPoint([], handler)]
  }

  /** The store after a successful `attachToExtensionPoint`: the item goes to the end. */
  function WithItem(store: Store, name: string, item: Item): (r: Store)
    requires name in store
    ensures r.Keys == store.Keys
    ensures r[name].items == store[name].items + [item] && r[name].handler == store[name].handler
    ensures forall other :: other in store && other != name ==> r[other] == store[other]
  {
    store[name := store[name].(items := store[name].items + [item])]
  }

  /** The store after attaching `items` one by one, in that order. */
  function WithItems(store: Store, name: string, items: seq<Item>): (r: Store)
    requires name in store
    ensures name in r
    decreases |items|
  {
    if items == [] then store
    else WithItems(WithItem(store, name, items[0]), name, items[1..])
  }

  /** Mapping distributes over concatenation. */
  lemma {:induction false} MapItemsAppend(xs: seq<Item>, ys: seq<Item>, handler: Item -> Item)
    ensures MapItems(xs + ys, handler) == MapItems(xs, handler) + MapItems(ys, handler)
  {
    var l, r := MapItems(xs + ys, handler), MapItems(xs, handler) + MapItems(ys, handler);
    assert |l| == |r|;
    forall i | 0 <= i < |l| ensures l[i] == r[i] {
      if i < |xs| {
        assert (xs + ys)[i] == xs[i];
      } else {
        assert (xs + ys)[i] == ys[i - |xs|];
      }
    }
  }

  /** A point registered without a handler gives back its items unchanged. */
  lemma ApplyIdentity(store: Store, name: string)
    requires name in store && store[name].handler == Identity
    ensures Apply(store, name) == Some(store[name].items)
  {
    assert Apply(store, name).value == store[name].items;
  }

  /**
   * Registering a name again changes nothing: the first handler and the items
   * contributed so far are kept. A new name starts with no items.
   */
  lemma {:induction false} FirstRegistrationWins(store: Store, name: string, first: Item -> Item, second: Item -> Item)
    ensures name in WithPoint(store, name, first)
    ensures WithPoint(WithPoint(store, name, first), name, second) == WithPoint(store, name, first)
    ensures name in store ==> WithPoint(store, name, second) == store
    ensures name !in store ==> Apply(WithPoint(store, name, first), name) == Some([])
    ensures name !in store ==> WithPoint(store, name, first)[name].handler == first
  {
  }

  /** Registering one point leaves what every other point yields unchanged. */
  lemma RegisterLeavesOthers(store: Store, name: string, handler: Item -> Item, other: string)
    requires other != name
    ensures Apply(WithPoint(store, name, handler), other) == Apply(store, other)
  {
  }

  /**
   * After an attach, reading the point yields what it yielded before followed
   * by the new item passed through the point's handler; every other point
   * yields what it did before.
   */
  lemma {:induction false} ApplyAfterAttach(store: Store, name: string, item: Item)
    requires name in store
    ensures Apply(WithItem(store, name, item), name) == Some(Apply(store, name).value + [store[name].handler(item)])
    ensures forall other :: other != name ==> Apply(WithItem(store, name, item), other) == Apply(store, other)
  {
    var p := store[name];
    MapItemsAppend(p.items, [item], p.handler);
    assert MapItems([item], p.handler) == [p.handler(item)];
  }

  /** Attaching `items` one by one appends them to the point, in invocation order. */
  lemma {:induction false} WithItemsAppends(store: Store, name: string, items: seq<Item>)
    requires name in store
    ensures WithItems(store, name, items)[name] == store[name].(items := store[name].items + items)
  {
    if items == [] {
      assert store[name].items + items == store[name].items;
    } else {
      var next := WithItem(store, name, items[0]);
      WithItemsAppends(next, name, items[1..]);
      assert (store[name].items + [items[0]]) + items[1..] == store[name].items + items;
    }
  }

  /**
   * Items read back in the order they were attached: attaching `items` one by
   * one appends their handled images, in invocation order.
   */
  lemma {:induction false} ApplyAfterAttachments(store: Store, name: string, items: seq<Item>)
    requires name in store
    ensures Apply(WithItems(store, name, items), name)
         == Some(Apply(store, name).value + MapItems(items, store[name].handler))
  {
    WithItemsAppends(store, name, items);
    MapItemsAppend(store[name].items, items, store[name].handler);
  }
}
