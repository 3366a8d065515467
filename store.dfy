/** The sabotage shop: the fixed item table, which entries the player can afford, and the
    inventory buttons, each of which uses the item it shows. */
module SabotageStore {
  import opened Wrappers
  import Canvas

  datatype Item = Item(id: string, name: string, price: nat, desc: string)

  const ITEMS: seq<Item> := [
    Item("invisible_ink", "Tinta Invis\U{ED}vel", 15, "O tra\U{E7}o s\U{F3} aparece depois."),
    Item("earthquake", "Terremoto", 10, "Treme a tela do desenhista."),
    Item("censorship", "Censura", 12, "Tarja preta no desenho."),
    Item("mirror", "Espelho", 8, "Inverte o desenho.")
  ]

  /** `items.find(i => i.id === id)`: the first item with that id. */
  function FindIn(items: seq<Item>, id: string): (r: Option<Item>)
    ensures r.None? <==> forall k :: 0 <= k < |items| ==> items[k].id != id
    ensures r.Some? ==> exists k :: 0 <= k < |items| && items[k] == r.value && r.value.id == id &&
                                    forall j :: 0 <= j < k ==> items[j].id != id
  {
    if items == [] then None
    else if items[0].id == id then Some(items[0])
    else
      var r := FindIn(items[1..], id);
      assert forall k :: 0 <= k < |items| - 1 ==> items[1..][k] == items[k + 1];
      r
  }

  function FindItem(id: string): Option<Item> {
    FindIn(ITEMS, id)
  }

  /** The ids are distinct, so lookup by id is unambiguous. */
  lemma ItemIdsUnique()
    ensures forall i, j :: 0 <= i < j < |ITEMS| ==> ITEMS[i].id != ITEMS[j].id
  {
  }

  /** The price list, by id. */
  lemma PriceTable()
    ensures FindItem("invisible_ink") == Some(ITEMS[0]) && ITEMS[0].price == 15
    ensures FindItem("earthquake") == Some(ITEMS[1]) && ITEMS[1].price == 10
    ensures FindItem("censorship") == Some(ITEMS[2]) && ITEMS[2].price == 12
    ensures FindItem("mirror") == Some(ITEMS[3]) && ITEMS[3].price == 8
  {
    assert ITEMS[0].id == "invisible_ink";
    assert ITEMS[1].id == "earthquake" && ITEMS[0].id != "earthquake";
    assert ITEMS[2].id == "censorship" && ITEMS[1].id != "censorship" && ITEMS[0].id != "censorship";
  }

  /** No other id names an item. */
  lemma UnknownIds(id: string)
    requires id != "invisible_ink" && id != "earthquake" && id != "censorship" && id != "mirror"
    ensures FindItem(id) == None
  {
    assert forall k :: 0 <= k < |ITEMS| ==> ITEMS[k].id != id;
  }

  /** Every item, once active with a target, switches on the canvas predicate of the same
      name: ink for its target, the earthquake for its target, censorship for everyone, the
      mirror for every guesser. */
  lemma ItemIdsAreEffectKinds(me: string, target: string)
    ensures Canvas.IsInvisibleInk([Canvas.Effect(ITEMS[0].id, me)], me)
    ensures Canvas.IsEarthquake([Canvas.Effect(ITEMS[1].id, me)], me)
    ensures Canvas.IsCensored([Canvas.Effect(ITEMS[2].id, target)])
    ensures Canvas.ShouldMirror([Canvas.Effect(ITEMS[3].id, target)], false)
  {
    assert [Canvas.Effect(ITEMS[0].id, me)][0].kind == "invisible_ink";
    assert [Canvas.Effect(ITEMS[1].id, me)][0].kind == "earthquake";
    assert [Canvas.Effect(ITEMS[2].id, target)][0].kind == "censorship";
    assert [Canvas.Effect(ITEMS[3].id, target)][0].kind == "mirror";
  }

  /** A shop button is disabled when the coins do not cover the price. */
  predicate Disabled(coins: int, item: Item) {
    coins < item.price
  }

  /** More coins never disable an entry that fewer coins enabled. */
  lemma AffordabilityMonotone(c1: int, c2: int, item: Item)
    requires c1 <= c2 && !Disabled(c1, item)
    ensures !Disabled(c2, item)
  {
  }

  /** A shop entry; pressing it buys `item.id`. */
  datatype ShopEntry = ShopEntry(item: Item, disabled: bool)

  function ShopEntries(coins: int): (r: seq<ShopEntry>)
    ensures |r| == |ITEMS|
    ensures forall k :: 0 <= k < |r| ==> r[k].item == ITEMS[k] && (r[k].disabled <==> coins < ITEMS[k].price)
  {
    seq(|ITEMS|, k requires 0 <= k < |ITEMS| => ShopEntry(ITEMS[k], Disabled(coins, ITEMS[k])))
  }

  /** With 7 coins nothing is on sale, with 8 only the mirror, with 15 everything. */
  lemma ShopThresholds()
    ensures forall k :: 0 <= k < |ITEMS| ==> (ShopEntries(8)[k].disabled <==> ITEMS[k].id != "mirror")
    ensures forall k :: 0 <= k < |ITEMS| ==> !ShopEntries(15)[k].disabled
    ensures forall k :: 0 <= k < |ITEMS| ==> ShopEntries(7)[k].disabled
  {
  }

  /** An inventory button: its position in the inventory and the item it shows. */
  datatype UseButton = UseButton(slot: nat, item: Item)

  /** The button for inventory slot `s`, if its id names one of `items`. */
  function ButtonAt(items: seq<Item>, inventory: seq<string>, s: nat): (r: seq<UseButton>)
    requires s < |inventory|
    ensures |r| <= 1
    ensures r != [] <==> FindIn(items, inventory[s]).Some?
    ensures r != [] ==> r[0].slot == s && FindIn(items, inventory[s]) == Some(r[0].item)
  {
    match FindIn(items, inventory[s])
    case None => []
    case Some(it) => [UseButton(s, it)]
  }

  /** `inventory.map(...)` with ids looked up in `items` (the store passes `ITEMS`); unknown
      ids render nothing. */
  function InventoryButtons(items: seq<Item>, inventory: seq<string>): (r: seq<UseButton>)
    ensures |r| <= |inventory|
    ensures forall k :: 0 <= k < |r| ==>
      r[k].slot < |inventory| && FindIn(items, inventory[r[k].slot]) == Some(r[k].item)
    ensures forall k, l :: 0 <= k < l < |r| ==> r[k].slot < r[l].slot
  {
    if inventory == [] then []
    else
      var n := |inventory| - 1;
      var front := InventoryButtons(items, inventory[..n]);
      assert forall s :: 0 <= s < n ==> inventory[..n][s] == inventory[s];
      front + ButtonAt(items, inventory, n)
  }

  /** Every slot whose id names an item gets a button, so duplicates are shown separately. */
  lemma {:induction false} InventoryButtonsCoverKnown(items: seq<Item>, inventory: seq<string>, s: nat)
    requires s < |inventory| && FindIn(items, inventory[s]).Some?
    ensures exists k :: 0 <= k < |InventoryButtons(items, inventory)| && InventoryButtons(items, inventory)[k].slot == s
  {
    var n := |inventory| - 1;
    if s == n {
      LastSlotButton(items, inventory);
    } else {
      assert FindIn(items, inventory[..n][s]).Some? by {
        assert inventory[..n][s] == inventory[s];
      }
      InventoryButtonsCoverKnown(items, inventory[..n], s);
      var k :| 0 <= k < |InventoryButtons(items, inventory[..n])| && InventoryButtons(items, inventory[..n])[k].slot == s;
      FrontButton(items, inventory, k);
    }
  }

  /** A known id in the last slot gives the last button. */
  lemma LastSlotButton(items: seq<Item>, inventory: seq<string>)
    requires inventory != [] && FindIn(items, inventory[|inventory| - 1]).Some?
    ensures |InventoryButtons(items, inventory)| > 0
    ensures InventoryButtons(items, inventory)[|InventoryButtons(items, inventory)| - 1].slot == |inventory| - 1
  {
    var n := |inventory| - 1;
    var last := ButtonAt(items, inventory, n);
    assert InventoryButtons(items, inventory) == InventoryButtons(items, inventory[..n]) + last;
    assert last != [] && last[0].slot == n;
  }

  /** The buttons of all slots but the last come first, unchanged. */
  lemma FrontButton(items: seq<Item>, inventory: seq<string>, k: nat)
    requires inventory != [] && k < |InventoryButtons(items, inventory[..|inventory| - 1])|
    ensures k < |InventoryButtons(items, inventory)|
    ensures InventoryButtons(items, inventory)[k] == InventoryButtons(items, inventory[..|inventory| - 1])[k]
  {
    var n := |inventory| - 1;
    assert InventoryButtons(items, inventory) == InventoryButtons(items, inventory[..n]) + ButtonAt(items, inventory, n);
  }

  /** Pressing a button uses the id stored at its slot, which is the id of the item shown. */
  lemma UseButtonUsesItsItem(items: seq<Item>, inventory: seq<string>, k: nat)
    requires k < |InventoryButtons(items, inventory)|
    ensures InventoryButtons(items, inventory)[k].item.id == inventory[InventoryButtons(items, inventory)[k].slot]
    ensures InventoryButtons(items, inventory)[k].item in items
  {
    var b := InventoryButtons(items, inventory)[k];
    var id := inventory[b.slot];
    var j :| 0 <= j < |items| && items[j] == b.item && b.item.id == id && forall i :: 0 <= i < j ==> items[i].id != id;
  }

  /** The rendered store: the coin badge, the inventory section when the inventory is not
      empty, and the shop list. */
  datatype StoreView = StoreView(coins: int, inventory: Option<seq<UseButton>>, shop: seq<ShopEntry>)

  function Store(coins: int, inventory: seq<string>): (v: StoreView)
    ensures v.coins == coins
    ensures v.inventory.Some? <==> |inventory| > 0
    ensures v.inventory.Some? ==> v.inventory.value == InventoryButtons(ITEMS, inventory)
    ensures v.shop == ShopEntries(coins)
  {
    StoreView(coins, if |inventory| > 0 then Some(InventoryButtons(ITEMS, inventory)) else None, ShopEntries(coins))
  }

  /** An inventory of only unknown ids still opens the (empty) section. */
  lemma UnknownOnlyInventory()
    ensures Store(0, ["bomb"]).inventory == Some([])
  {
    assert FindItem("bomb") == None;
  }
}
