/**
 * A purchasable menu item (`MenuItemForOrder`): one of three JSON-tagged variants,
 * with a name, a price, a description, a weight and a list of allergens.
 */
module MenuItems {
  import opened Wrappers

  /** The three variants of a menu item. */
  datatype ItemKind = Dish | Drink | Dessert

  /** The type discriminator each variant is written with in the catalog file: its own capitalised name. */
  function KindTag(k: ItemKind): (t: string)
    ensures t != [] && 'A' <= t[0] <= 'Z'
  {
    match k
    case Dish => "Dish"
    case Drink => "Drink"
    case Dessert => "Dessert"
  }

  /** The variant a discriminator names; `None` for any other text. */
  function KindOfTag(tag: string): (k: Option<ItemKind>)
    ensures k.Some? ==> KindTag(k.value) == tag
  {
    if tag == "Dish" then Some(Dish)
    else if tag == "Drink" then Some(Drink)
    else if tag == "Dessert" then Some(Dessert)
    else None
  }

  /** Every variant is read back from its own discriminator, so the three tags are distinct. */
  lemma KindTagRoundTrip(k: ItemKind)
    ensures KindOfTag(KindTag(k)) == Some(k)
  {
  }

  /**
   * One menu item. Prices are in minor currency units; the weight in grams is kept as
   * given and only ever displayed. The allergen list is held by value, so the item keeps
   * its own copy of whatever list it was built from.
   */
  datatype MenuItem = MenuItem(
    kind: ItemKind,
    name: string,
    price: int,
    description: string,
    weightGrams: real,
    allergens: seq<string>)

  /** The parameterless (deserialisation) constructor: no allergens, zero price and weight. */
  function EmptyMenuItem(kind: ItemKind): (m: MenuItem)
    ensures m.kind == kind && m.allergens == [] && m.price == 0
  {
    MenuItem(kind, "", 0, "", 0.0, [])
  }

  /**
   * The constructor with arguments: stores name, price, description and weight as given,
   * and copies the allergen list when one is passed (`null` leaves the list empty).
   */
  function NewMenuItem(kind: ItemKind, name: string, price: int, description: string,
                       weightGrams: real, allergens: Option<seq<string>>): (m: MenuItem)
    ensures m.kind == kind && m.name == name && m.price == price
    ensures m.description == description && m.weightGrams == weightGrams
    ensures m.allergens == if allergens.Some? then allergens.value else []
  {
    MenuItem(kind, name, price, description, weightGrams,
             match allergens case Some(a) => a case None => [])
  }
}
