/** The pharmacy shop page: the medicine list it loaded, the search and
    category filter over it, the per-category tab counts, and the shopping
    cart. Adding, incrementing, decrementing and removing cart lines move
    units between a medicine's displayed stock and its cart line, so for
    every medicine stock plus quantity in the cart stays the same. */
module Cart {
  import opened Common

  /** A medicine as the page received it; the optional texts may be absent. */
  datatype ShopMedicine = ShopMedicine(id: nat, name: string, genericName: Option<string>, brand: Option<string>,
                                       category: Option<string>, description: Option<string>,
                                       price: Money, stock: int)

  datatype CartEntry = CartEntry(medicineId: nat, name: string, price: Money, quantity: int)

  /** `medicines.find(m => m.id == id)`: the index of the first medicine with the id. */
  function FindMedicine(meds: seq<ShopMedicine>, id: nat): (r: Option<nat>)
    ensures r.Some? ==> r.value < |meds| && meds[r.value].id == id &&
                        forall k :: 0 <= k < r.value ==> meds[k].id != id
    ensures r.None? ==> forall k :: 0 <= k < |meds| ==> meds[k].id != id
  {
    if meds == [] then None
    else if meds[0].id == id then Some(0)
    else match FindMedicine(meds[1..], id)
      case None => None
      case Some(k) => Some(k + 1)
  }

  /** `cart.find(item => item.medicineId == id)` / `findIndex`: the first line for the medicine. */
  function FindEntry(cart: seq<CartEntry>, id: nat): (r: Option<nat>)
    ensures r.Some? ==> r.value < |cart| && cart[r.value].medicineId == id &&
                        forall k :: 0 <= k < r.value ==> cart[k].medicineId != id
    ensures r.None? ==> forall k :: 0 <= k < |cart| ==> cart[k].medicineId != id
  {
    if cart == [] then None
    else if cart[0].medicineId == id then Some(0)
    else match FindEntry(cart[1..], id)
      case None => None
      case Some(k) => Some(k + 1)
  }

  /** The stock the page shows for a medicine id (0 when it lists no such medicine). */
  function StockOf(meds: seq<ShopMedicine>, id: nat): int
  {
    match FindMedicine(meds, id)
    case Some(k) => meds[k].stock
    case None => 0
  }

  /** The quantity of a medicine in the cart, over all its lines. */
  function QtyOf(cart: seq<CartEntry>, id: nat): int
  {
    if cart == [] then 0
    else QtyOf(cart[..|cart| - 1], id) + (if cart[|cart| - 1].medicineId == id then cart[|cart| - 1].quantity else 0)
  }

  /** Units of a medicine on the page: on the shelf plus in the cart. */
  function Held(meds: seq<ShopMedicine>, cart: seq<CartEntry>, id: nat): int
  {
    StockOf(meds, id) + QtyOf(cart, id)
  }

  predicate StockNonNegative(meds: seq<ShopMedicine>)
  {
    forall k :: 0 <= k < |meds| ==> meds[k].stock >= 0
  }

  /** The cart badge: the quantities of all lines added up. */
  function ItemCount(cart: seq<CartEntry>): int
  {
    if cart == [] then 0 else ItemCount(cart[..|cart| - 1]) + cart[|cart| - 1].quantity
  }

  lemma {:induction false} QtyOfConcat(a: seq<CartEntry>, b: seq<CartEntry>, id: nat)
    ensures QtyOf(a + b, id) == QtyOf(a, id) + QtyOf(b, id)
    decreases |b|
  {
    if b == [] {
      assert a + b == a;
    } else {
      var b' := b[..|b| - 1];
      assert (a + b)[..|a + b| - 1] == a + b';
      QtyOfConcat(a, b', id);
    }
  }

  /** Replacing one line's quantity changes that medicine's cart quantity by
      the difference and no other medicine's. */
  lemma QtyOfUpdate(cart: seq<CartEntry>, c: nat, q: int, id: nat)
    requires c < |cart|
    ensures QtyOf(cart[c := cart[c].(quantity := q)], id) ==
              QtyOf(cart, id) + (if cart[c].medicineId == id then q - cart[c].quantity else 0)
  {
    var e := cart[c].(quantity := q);
    assert cart == cart[..c] + [cart[c]] + cart[c + 1..];
    assert cart[c := e] == cart[..c] + [e] + cart[c + 1..];
    QtyOfConcat(cart[..c] + [cart[c]], cart[c + 1..], id);
    QtyOfConcat(cart[..c] + [e], cart[c + 1..], id);
    QtyOfConcat(cart[..c], [cart[c]], id);
    QtyOfConcat(cart[..c], [e], id);
  }

  /** Deleting one line removes exactly its quantity from its medicine. */
  lemma QtyOfRemove(cart: seq<CartEntry>, c: nat, id: nat)
    requires c < |cart|
    ensures QtyOf(cart[..c] + cart[c + 1..], id) ==
              QtyOf(cart, id) - (if cart[c].medicineId == id then cart[c].quantity else 0)
  {
    assert cart == cart[..c] + [cart[c]] + cart[c + 1..];
    QtyOfConcat(cart[..c] + [cart[c]], cart[c + 1..], id);
    QtyOfConcat(cart[..c], [cart[c]], id);
    QtyOfConcat(cart[..c], cart[c + 1..], id);
  }

  /** With one line per medicine, a medicine's cart quantity is that of its line. */
  lemma {:induction false} QtyOfSingleLine(cart: seq<CartEntry>, id: nat)
    requires forall i, j :: 0 <= i < j < |cart| ==> cart[i].medicineId != cart[j].medicineId
    ensures FindEntry(cart, id).Some? ==> QtyOf(cart, id) == cart[FindEntry(cart, id).value].quantity
    ensures FindEntry(cart, id).None? ==> QtyOf(cart, id) == 0
  {
    if cart != [] {
      var init := cart[..|cart| - 1];
      QtyOfSingleLine(init, id);
      if FindEntry(init, id).Some? {
        var c := FindEntry(init, id).value;
        assert init[c] == cart[c];
        assert FindEntry(cart, id) == Some(c) by {
          forall k | 0 <= k < c
            ensures cart[k].medicineId != id
          {
            assert cart[k] == init[k];
          }
        }
      } else {
        forall k | 0 <= k < |init|
          ensures init[k].medicineId != id
        {
        }
      }
    }
  }

  /** Every line holds at least one unit, so the badge counts at least the lines. */
  lemma {:induction false} ItemCountAtLeastLines(cart: seq<CartEntry>)
    requires forall i :: 0 <= i < |cart| ==> cart[i].quantity >= 1
    ensures ItemCount(cart) >= |cart|
  {
    if cart != [] {
      ItemCountAtLeastLines(cart[..|cart| - 1]);
    }
  }

  /** Likewise for the cart: changing a quantity does not change any lookup. */
  lemma {:induction false} FindEntryIgnoresQuantity(cart: seq<CartEntry>, c: nat, q: int, id: nat)
    requires c < |cart|
    ensures FindEntry(cart[c := cart[c].(quantity := q)], id) == FindEntry(cart, id)
  {
    if cart != [] && cart[0].medicineId != id {
      if c == 0 {
        assert cart[c := cart[c].(quantity := q)][1..] == cart[1..];
      } else {
        assert cart[c := cart[c].(quantity := q)][1..] == cart[1..][c - 1 := cart[c].(quantity := q)];
        FindEntryIgnoresQuantity(cart[1..], c - 1, q, id);
      }
    }
  }

  /** Only ids decide which medicine `find` returns, so changing a stock level
      does not change any lookup. */
  lemma {:induction false} FindIgnoresStock(meds: seq<ShopMedicine>, k: nat, s: int, id: nat)
    requires k < |meds|
    ensures FindMedicine(meds[k := meds[k].(stock := s)], id) == FindMedicine(meds, id)
  {
    if meds != [] && meds[0].id != id {
      if k == 0 {
        assert meds[k := meds[k].(stock := s)][1..] == meds[1..];
      } else {
        assert meds[k := meds[k].(stock := s)][1..] == meds[1..][k - 1 := meds[k].(stock := s)];
        FindIgnoresStock(meds[1..], k - 1, s, id);
      }
    }
  }

  // ---------------------------------------------------------------------------
  // Search and category filter

  /** The search box's value, lower-cased and then trimmed. */
  function SearchTerm(input: string): string
  {
    JsTrim(ToLower(input))
  }

  /** A text field present and containing the term, after lower-casing. */
  predicate FieldMatches(field: Option<string>, term: string)
  {
    field.Some? && field.value != "" && Contains(ToLower(field.value), term)
  }

  /** The search and category tests of the filter. */
  predicate Matches(m: ShopMedicine, term: string, category: string)
  {
    (term == "" || FieldMatches(Some(m.name), term) || FieldMatches(m.genericName, term) ||
     FieldMatches(m.brand, term) || FieldMatches(m.description, term))
    && (category == "all" || m.category == Some(category))
  }

  /** `filterMedicines`: the listed medicines, in order, that pass both tests. */
  function FilterMedicines(meds: seq<ShopMedicine>, term: string, category: string): (r: seq<ShopMedicine>)
    ensures forall m :: m in r <==> m in meds && Matches(m, term, category)
  {
    Filter(meds, m => Matches(m, term, category))
  }

  /** With an empty search and the 'all' category the whole list is shown, in order. */
  lemma {:induction false} UnfilteredShowsAll(meds: seq<ShopMedicine>)
    ensures FilterMedicines(meds, "", "all") == meds
  {
    if meds != [] {
      UnfilteredShowsAll(meds[..|meds| - 1]);
      assert meds == meds[..|meds| - 1] + [meds[|meds| - 1]];
    }
  }

  /** Narrowing the category never shows a medicine the 'all' view hides. */
  lemma CategoryNarrows(meds: seq<ShopMedicine>, term: string, category: string)
    ensures forall m :: m in FilterMedicines(meds, term, category) ==> m in FilterMedicines(meds, term, "all")
  {
  }

  // ---------------------------------------------------------------------------
  // Category tab counts

  /** The tab a medicine counts under: its category, or 'Uncategorized' when it
      has none or an empty one. */
  function CategoryKey(m: ShopMedicine): string
  {
    if m.category.None? || m.category.value == "" then "Uncategorized" else m.category.value
  }

  /** How many medicines count under a tab. */
  function CountOf(meds: seq<ShopMedicine>, c: string): nat
  {
    if meds == [] then 0
    else CountOf(meds[..|meds| - 1], c) + (if CategoryKey(meds[|meds| - 1]) == c then 1 else 0)
  }

  /** The tabs that occur. */
  function Categories(meds: seq<ShopMedicine>): set<string>
  {
    set m | m in meds :: CategoryKey(m)
  }

  /** The reduce in `updateCategoryUI`: one count per occurring tab. */
  function CategoryCounts(meds: seq<ShopMedicine>): map<string, nat>
  {
    map c | c in Categories(meds) :: CountOf(meds, c)
  }

  /** Every occurring tab counts at least one medicine. */
  lemma {:induction false} CountOfPositive(meds: seq<ShopMedicine>, c: string)
    requires c in Categories(meds)
    ensures CountOf(meds, c) >= 1
  {
    var init := meds[..|meds| - 1];
    if CategoryKey(meds[|meds| - 1]) != c {
      var m :| m in meds && CategoryKey(m) == c;
      assert m in init by {
        var k :| 0 <= k < |meds| && meds[k] == m;
        assert k < |meds| - 1;
        assert init[k] == m;
      }
      CountOfPositive(init, c);
    }
  }

  /** The count values added up over a set of tabs. */
  ghost function SumCounts(meds: seq<ShopMedicine>, cs: set<string>): nat
  {
    if cs == {} then 0
    else
      var c := Pick(cs);
      CountOf(meds, c) + SumCounts(meds, cs - {c})
  }

  ghost function Pick(cs: set<string>): (c: string)
    requires cs != {}
    ensures c in cs
  {
    var c :| c in cs; c
  }

  /** How many medicines count under some tab of the set. */
  function CountIn(meds: seq<ShopMedicine>, cs: set<string>): nat
  {
    if meds == [] then 0
    else CountIn(meds[..|meds| - 1], cs) + (if CategoryKey(meds[|meds| - 1]) in cs then 1 else 0)
  }

  lemma {:induction false} CountInSplit(meds: seq<ShopMedicine>, cs: set<string>, c: string)
    requires c in cs
    ensures CountIn(meds, cs) == CountOf(meds, c) + CountIn(meds, cs - {c})
  {
    if meds != [] {
      CountInSplit(meds[..|meds| - 1], cs, c);
    }
  }

  lemma {:induction false} CountInNone(meds: seq<ShopMedicine>)
    ensures CountIn(meds, {}) == 0
  {
    if meds != [] {
      CountInNone(meds[..|meds| - 1]);
    }
  }

  lemma {:induction false} SumCountsIsCountIn(meds: seq<ShopMedicine>, cs: set<string>)
    ensures SumCounts(meds, cs) == CountIn(meds, cs)
    decreases |cs|
  {
    if cs != {} {
      var c := Pick(cs);
      assert SumCounts(meds, cs) == CountOf(meds, c) + SumCounts(meds, cs - {c});
      SumCountsIsCountIn(meds, cs - {c});
      CountInSplit(meds, cs, c);
    } else {
      CountInNone(meds);
    }
  }

  lemma {:induction false} CountInAll(meds: seq<ShopMedicine>, cs: set<string>)
    requires Categories(meds) <= cs
    ensures CountIn(meds, cs) == |meds|
  {
    if meds != [] {
      var init := meds[..|meds| - 1];
      assert Categories(init) <= Categories(meds) by {
        forall c | c in Categories(init)
          ensures c in Categories(meds)
        {
          var m :| m in init && CategoryKey(m) == c;
          assert m in meds;
        }
      }
      assert CategoryKey(meds[|meds| - 1]) in Categories(meds);
      CountInAll(init, cs);
    }
  }

  /** The per-category counts add up to the 'all' tab's count, the number of
      medicines: every medicine counts under exactly one tab. */
  lemma CategoryCountsSumToTotal(meds: seq<ShopMedicine>)
    ensures forall c :: c in CategoryCounts(meds) ==> CategoryCounts(meds)[c] >= 1
    ensures SumCounts(meds, CategoryCounts(meds).Keys) == |meds|
  {
    forall c | c in CategoryCounts(meds)
      ensures CategoryCounts(meds)[c] >= 1
    {
      CountOfPositive(meds, c);
    }
    var cs := Categories(meds);
    assert CategoryCounts(meds).Keys == cs;
    SumCountsIsCountIn(meds, cs);
    CountInAll(meds, cs);
  }

  // ---------------------------------------------------------------------------
  // The page's state

  /** At most one cart line per medicine. */
  predicate DistinctLines(cart: seq<CartEntry>)
  {
    forall i, j :: 0 <= i < j < |cart| ==> cart[i].medicineId != cart[j].medicineId
  }

  /** Every cart line holds at least one unit. */
  predicate LinesPositive(cart: seq<CartEntry>)
  {
    forall i :: 0 <= i < |cart| ==> cart[i].quantity >= 1
  }

  /** For every listed medicine, stock plus cart quantity is the same in both states. */
  ghost predicate Conserved(meds: seq<ShopMedicine>, cart: seq<CartEntry>, meds': seq<ShopMedicine>, cart': seq<CartEntry>)
  {
    forall j: nat {:trigger Held(meds', cart', j)} :: FindMedicine(meds, j).Some? ==> Held(meds', cart', j) == Held(meds, cart, j)
  }

  function SetStock(meds: seq<ShopMedicine>, k: nat, s: int): seq<ShopMedicine>
    requires k < |meds|
  {
    meds[k := meds[k].(stock := s)]
  }

  function SetQuantity(cart: seq<CartEntry>, c: nat, q: int): seq<CartEntry>
    requires c < |cart|
  {
    cart[c := cart[c].(quantity := q)]
  }

  function RemoveLine(cart: seq<CartEntry>, c: nat): seq<CartEntry>
    requires c < |cart|
  {
    cart[..c] + cart[c + 1..]
  }

  /** Moving `delta` units of a listed medicine from its stock to its cart line
      keeps every medicine's units and the one-line-per-medicine shape. */
  lemma MoveUnits(meds: seq<ShopMedicine>, cart: seq<CartEntry>, k: nat, c: nat, delta: int)
    requires c < |cart| && FindMedicine(meds, cart[c].medicineId) == Some(k)
    ensures Conserved(meds, cart, SetStock(meds, k, meds[k].stock - delta), SetQuantity(cart, c, cart[c].quantity + delta))
    ensures DistinctLines(cart) ==> DistinctLines(SetQuantity(cart, c, cart[c].quantity + delta))
    ensures LinesPositive(cart) && cart[c].quantity + delta >= 1 ==> LinesPositive(SetQuantity(cart, c, cart[c].quantity + delta))
    ensures StockNonNegative(meds) && meds[k].stock - delta >= 0 ==> StockNonNegative(SetStock(meds, k, meds[k].stock - delta))
  {
    var meds' := SetStock(meds, k, meds[k].stock - delta);
    var cart' := SetQuantity(cart, c, cart[c].quantity + delta);
    forall j: nat
      ensures Held(meds', cart', j) == Held(meds, cart, j)
    {
      FindIgnoresStock(meds, k, meds[k].stock - delta, j);
      QtyOfUpdate(cart, c, cart[c].quantity + delta, j);
    }
  }

  /** Taking one unit of a listed medicine without a cart line into a new line
      of quantity 1 keeps every medicine's units and the cart's shape. */
  lemma NewLine(meds: seq<ShopMedicine>, cart: seq<CartEntry>, k: nat, e: CartEntry)
    requires FindMedicine(meds, e.medicineId) == Some(k) && FindEntry(cart, e.medicineId).None? && e.quantity == 1
    ensures Conserved(meds, cart, SetStock(meds, k, meds[k].stock - 1), cart + [e])
    ensures DistinctLines(cart) ==> DistinctLines(cart + [e])
    ensures LinesPositive(cart) ==> LinesPositive(cart + [e])
    ensures StockNonNegative(meds) && meds[k].stock >= 1 ==> StockNonNegative(SetStock(meds, k, meds[k].stock - 1))
  {
    var meds' := SetStock(meds, k, meds[k].stock - 1);
    forall j: nat
      ensures Held(meds', cart + [e], j) == Held(meds, cart, j)
    {
      FindIgnoresStock(meds, k, meds[k].stock - 1, j);
      QtyOfConcat(cart, [e], j);
      assert [e][..0] == [];
    }
  }

  /** Returning a line's whole quantity to its medicine's stock and deleting
      the line keeps every medicine's units and leaves none of it in the cart. */
  lemma DropLine(meds: seq<ShopMedicine>, cart: seq<CartEntry>, k: nat, c: nat)
    requires DistinctLines(cart)
    requires c < |cart| && FindMedicine(meds, cart[c].medicineId) == Some(k)
    ensures Conserved(meds, cart, SetStock(meds, k, meds[k].stock + cart[c].quantity), RemoveLine(cart, c))
    ensures QtyOf(RemoveLine(cart, c), cart[c].medicineId) == 0
  {
    var meds' := SetStock(meds, k, meds[k].stock + cart[c].quantity);
    var cart' := RemoveLine(cart, c);
    forall j: nat
      ensures Held(meds', cart', j) == Held(meds, cart, j)
    {
      FindIgnoresStock(meds, k, meds[k].stock + cart[c].quantity, j);
      QtyOfRemove(cart, c, j);
    }
    QtyOfSingleLine(cart, cart[c].medicineId);
    QtyOfRemove(cart, c, cart[c].medicineId);
  }

  /** Deleting the line of a medicine the page does not list changes no listed
      medicine's units. */
  lemma DropUnlistedLine(meds: seq<ShopMedicine>, cart: seq<CartEntry>, c: nat)
    requires DistinctLines(cart)
    requires c < |cart| && FindMedicine(meds, cart[c].medicineId).None?
    ensures Conserved(meds, cart, meds, RemoveLine(cart, c))
    ensures QtyOf(RemoveLine(cart, c), cart[c].medicineId) == 0
  {
    forall j: nat | FindMedicine(meds, j).Some?
      ensures Held(meds, RemoveLine(cart, c), j) == Held(meds, cart, j)
    {
      QtyOfRemove(cart, c, j);
    }
    QtyOfSingleLine(cart, cart[c].medicineId);
    QtyOfRemove(cart, c, cart[c].medicineId);
  }

  /** Deleting a line keeps at most one line per medicine, and leaves only
      lines with units when the deleted line was the only one without. */
  lemma DropLineShape(cart: seq<CartEntry>, c: nat)
    requires c < |cart|
    ensures DistinctLines(cart) ==> DistinctLines(RemoveLine(cart, c))
    ensures (forall i :: 0 <= i < |cart| && i != c ==> cart[i].quantity >= 1) ==> LinesPositive(RemoveLine(cart, c))
  {
    var cart' := RemoveLine(cart, c);
    forall i | 0 <= i < |cart'|
      ensures cart'[i] == cart[if i < c then i else i + 1]
    {
    }
  }

  /** Two steps that each keep every listed medicine's units, the first only
      changing a stock level, together keep them too. */
  lemma ConservedChain(meds: seq<ShopMedicine>, cart: seq<CartEntry>, k: nat, s: int,
                       meds1: seq<ShopMedicine>, cart1: seq<CartEntry>, meds2: seq<ShopMedicine>, cart2: seq<CartEntry>)
    requires k < |meds| && meds1 == SetStock(meds, k, s)
    requires Conserved(meds, cart, meds1, cart1)
    requires Conserved(meds1, cart1, meds2, cart2)
    ensures Conserved(meds, cart, meds2, cart2)
  {
    forall j: nat | FindMedicine(meds, j).Some?
      ensures Held(meds2, cart2, j) == Held(meds, cart, j)
    {
      FindIgnoresStock(meds, k, s, j);
    }
  }

  lemma SetStockNonNegative(meds: seq<ShopMedicine>, k: nat, s: int)
    requires k < |meds| && StockNonNegative(meds) && s >= 0
    ensures StockNonNegative(SetStock(meds, k, s))
  {
  }

  lemma SetStockTwice(meds: seq<ShopMedicine>, k: nat, s: int, s': int)
    requires k < |meds|
    ensures SetStock(SetStock(meds, k, s), k, s') == SetStock(meds, k, s')
  {
  }

  /** The list after `q` units of a medicine go back to its stock, if it is listed. */
  function Restocked(meds: seq<ShopMedicine>, id: nat, q: int): seq<ShopMedicine>
  {
    match FindMedicine(meds, id)
    case Some(k) => SetStock(meds, k, meds[k].stock + q)
    case None => meds
  }

  /** The page lists the medicine and shows stock left for it. */
  predicate InStock(meds: seq<ShopMedicine>, id: nat)
  {
    FindMedicine(meds, id).Some? && meds[FindMedicine(meds, id).value].stock > 0
  }

  /** The medicine has a cart line and is listed, and the change is not an
      increase while its stock is exhausted. */
  predicate Adjustable(meds: seq<ShopMedicine>, cart: seq<CartEntry>, id: nat, change: int)
  {
    FindEntry(cart, id).Some? && FindMedicine(meds, id).Some? &&
    !(change > 0 && meds[FindMedicine(meds, id).value].stock <= 0)
  }

  /** What the page shows: the medicine list and the cart. */
  datatype Page = Page(meds: seq<ShopMedicine>, cart: seq<CartEntry>)

  /** The page after `addToCart(id)`. */
  function AddedToCart(meds: seq<ShopMedicine>, cart: seq<CartEntry>, id: nat): Page
  {
    match FindMedicine(meds, id)
    case None => Page(meds, cart)
    case Some(k) =>
      if meds[k].stock <= 0 then Page(meds, cart)
      else
        var m := meds[k];
        match FindEntry(cart, id)
        case Some(c) => Page(SetStock(meds, k, m.stock - 1), SetQuantity(cart, c, cart[c].quantity + 1))
        case None => Page(SetStock(meds, k, m.stock - 1), cart + [CartEntry(m.id, m.name, m.price, 1)])
  }

  /** The page after `removeFromCart(id)`. */
  function RemovedFromCart(meds: seq<ShopMedicine>, cart: seq<CartEntry>, id: nat): Page
  {
    match FindEntry(cart, id)
    case None => Page(meds, cart)
    case Some(c) => Page(Restocked(meds, id, cart[c].quantity), RemoveLine(cart, c))
  }

  /** The page after `updateCartItemQuantity(id, change)`; a line left without
      units goes through `removeFromCart`. */
  function QuantityUpdated(meds: seq<ShopMedicine>, cart: seq<CartEntry>, id: nat, change: int): Page
  {
    if !Adjustable(meds, cart, id, change) then Page(meds, cart)
    else
      var c := FindEntry(cart, id).value;
      var k := FindMedicine(meds, id).value;
      var meds1 := SetStock(meds, k, meds[k].stock - change);
      var cart1 := SetQuantity(cart, c, cart[c].quantity + change);
      if cart1[c].quantity <= 0 then RemovedFromCart(meds1, cart1, id) else Page(meds1, cart1)
  }

  /** Adding to the cart keeps one line per medicine, every line holding
      units, every listed medicine's stock-plus-cart units, and stock
      non-negative; when the medicine was in stock its cart quantity and the
      badge count go up by one. */
  lemma AddToCartKeepsUnits(meds: seq<ShopMedicine>, cart: seq<CartEntry>, id: nat)
    requires DistinctLines(cart) && LinesPositive(cart)
    ensures var p := AddedToCart(meds, cart, id);
            DistinctLines(p.cart) && LinesPositive(p.cart) && Conserved(meds, cart, p.meds, p.cart) &&
            (StockNonNegative(meds) ==> StockNonNegative(p.meds)) &&
            (InStock(meds, id) ==> QtyOf(p.cart, id) == QtyOf(cart, id) + 1 && ItemCount(p.cart) == ItemCount(cart) + 1) &&
            (!InStock(meds, id) ==> p == Page(meds, cart))
  {
    if InStock(meds, id) {
      var k := FindMedicine(meds, id).value;
      var m := meds[k];
      match FindEntry(cart, id)
      case Some(c) =>
        MoveUnits(meds, cart, k, c, 1);
        QtyOfUpdate(cart, c, cart[c].quantity + 1, id);
        ItemCountUpdate(cart, c, cart[c].quantity + 1);
      case None =>
        var e := CartEntry(m.id, m.name, m.price, 1);
        NewLine(meds, cart, k, e);
        QtyOfConcat(cart, [e], id);
        assert (cart + [e])[..|cart|] == cart;
    }
  }

  /** Removing a line keeps one line per medicine and every listed medicine's
      units, and leaves none of the medicine in the cart; with every line
      holding units, stock stays non-negative and every line still holds units. */
  lemma RemoveFromCartKeepsUnits(meds: seq<ShopMedicine>, cart: seq<CartEntry>, id: nat)
    requires DistinctLines(cart)
    ensures var p := RemovedFromCart(meds, cart, id);
            DistinctLines(p.cart) && Conserved(meds, cart, p.meds, p.cart) && QtyOf(p.cart, id) == 0 &&
            (LinesPositive(cart) ==> LinesPositive(p.cart)) &&
            (LinesPositive(cart) && StockNonNegative(meds) ==> StockNonNegative(p.meds))
  {
    match FindEntry(cart, id)
    case None =>
      QtyOfSingleLine(cart, id);
    case Some(c) =>
      var cart' := RemoveLine(cart, c);
      assert DistinctLines(cart') && (LinesPositive(cart) ==> LinesPositive(cart')) by {
        DropLineShape(cart, c);
      }
      match FindMedicine(meds, id)
      case Some(k) =>
        var meds' := SetStock(meds, k, meds[k].stock + cart[c].quantity);
        assert Conserved(meds, cart, meds', cart') && QtyOf(cart', id) == 0 by {
          DropLine(meds, cart, k, c);
        }
        assert LinesPositive(cart) && StockNonNegative(meds) ==> StockNonNegative(meds') by {
          if LinesPositive(cart) && StockNonNegative(meds) {
            SetStockNonNegative(meds, k, meds[k].stock + cart[c].quantity);
          }
        }
      case None =>
        assert Conserved(meds, cart, meds, cart') && QtyOf(cart', id) == 0 by {
          DropUnlistedLine(meds, cart, c);
        }
  }

  /** Changing a line's quantity keeps one line per medicine, every line
      holding units and every listed medicine's units; with a change of at
      most one unit upwards (what the + and - buttons send) stock stays
      non-negative. */
  lemma UpdateKeepsUnits(meds: seq<ShopMedicine>, cart: seq<CartEntry>, id: nat, change: int)
    requires DistinctLines(cart) && LinesPositive(cart)
    ensures var p := QuantityUpdated(meds, cart, id, change);
            DistinctLines(p.cart) && LinesPositive(p.cart) && Conserved(meds, cart, p.meds, p.cart) &&
            (change <= 1 && StockNonNegative(meds) ==> StockNonNegative(p.meds))
  {
    if Adjustable(meds, cart, id, change) {
      var c := FindEntry(cart, id).value;
      var k := FindMedicine(meds, id).value;
      if cart[c].quantity + change <= 0 {
        var meds2 := SetStock(meds, k, meds[k].stock + cart[c].quantity);
        var cart2 := RemoveLine(cart, c);
        assert QuantityUpdated(meds, cart, id, change).meds == meds2 && QuantityUpdated(meds, cart, id, change).cart == cart2 by {
          UpdateEmptiesLine(meds, cart, id, change);
        }
        assert Conserved(meds, cart, meds2, cart2) by {
          DropLine(meds, cart, k, c);
        }
        assert DistinctLines(cart2) && LinesPositive(cart2) by {
          DropLineShape(cart, c);
        }
        assert StockNonNegative(meds) ==> StockNonNegative(meds2) by {
          if StockNonNegative(meds) {
            SetStockNonNegative(meds, k, meds[k].stock + cart[c].quantity);
          }
        }
      } else {
        var meds1 := SetStock(meds, k, meds[k].stock - change);
        var cart1 := SetQuantity(cart, c, cart[c].quantity + change);
        assert QuantityUpdated(meds, cart, id, change) == Page(meds1, cart1);
        assert Conserved(meds, cart, meds1, cart1) && DistinctLines(cart1) && LinesPositive(cart1) &&
               (change <= 1 && StockNonNegative(meds) ==> StockNonNegative(meds1)) by {
          MoveUnits(meds, cart, k, c, change);
        }
      }
    }
  }

  /** A change that leaves a line without units ends like `removeFromCart`
      on the page before it: the line's whole old quantity goes back to stock
      and the line is gone. */
  lemma UpdateEmptiesLine(meds: seq<ShopMedicine>, cart: seq<CartEntry>, id: nat, change: int)
    requires Adjustable(meds, cart, id, change)
    requires cart[FindEntry(cart, id).value].quantity + change <= 0
    ensures var c := FindEntry(cart, id).value;
            var k := FindMedicine(meds, id).value;
            QuantityUpdated(meds, cart, id, change).meds == SetStock(meds, k, meds[k].stock + cart[c].quantity)
    ensures QuantityUpdated(meds, cart, id, change).cart == RemoveLine(cart, FindEntry(cart, id).value)
  {
    var c := FindEntry(cart, id).value;
    var k := FindMedicine(meds, id).value;
    var meds1 := SetStock(meds, k, meds[k].stock - change);
    var cart1 := SetQuantity(cart, c, cart[c].quantity + change);
    assert QuantityUpdated(meds, cart, id, change) == RemovedFromCart(meds1, cart1, id);
    assert FindEntry(cart1, id) == Some(c) by {
      FindEntryIgnoresQuantity(cart, c, cart[c].quantity + change, id);
    }
    assert FindMedicine(meds1, id) == Some(k) by {
      FindIgnoresStock(meds, k, meds[k].stock - change, id);
    }
    assert Restocked(meds1, id, cart1[c].quantity) == SetStock(meds, k, meds[k].stock + cart[c].quantity) by {
      SetStockTwice(meds, k, meds[k].stock - change, meds[k].stock + cart[c].quantity);
    }
    assert RemoveLine(cart1, c) == RemoveLine(cart, c);
    assert RemovedFromCart(meds1, cart1, id) == Page(Restocked(meds1, id, cart1[c].quantity), RemoveLine(cart1, c));
  }

  class PharmacyPage {
    var medicines: seq<ShopMedicine>
    var cart: seq<CartEntry>

    /** At most one line per medicine. */
    ghost predicate WellFormed()
      reads this
    {
      DistinctLines(cart)
    }

    /** ... and every line holds at least one unit. */
    ghost predicate Valid()
      reads this
    {
      WellFormed() && LinesPositive(cart)
    }

    /** The page after loading: the list, an empty cart. */
    constructor(medicines: seq<ShopMedicine>)
      ensures Valid() && this.medicines == medicines && cart == []
    {
      this.medicines := medicines;
      cart := [];
    }

    /** `addToCart`: nothing happens for an unlisted medicine or one out of
        stock; otherwise one unit moves from its stock to its cart line, which
        is created with quantity 1 if the cart had none. */
    method AddToCart(id: nat)
      requires Valid()
      modifies this
      ensures Valid()
      ensures Page(medicines, cart) == AddedToCart(old(medicines), old(cart), id)
    {
      assert DistinctLines(AddedToCart(medicines, cart, id).cart) && LinesPositive(AddedToCart(medicines, cart, id).cart) by {
        AddToCartKeepsUnits(medicines, cart, id);
      }
      var k := FindMedicine(medicines, id);
      if k.None? || medicines[k.value].stock <= 0 {
        return;
      }
      var m := medicines[k.value];
      medicines := SetStock(medicines, k.value, m.stock - 1);
      var c := FindEntry(cart, id);
      if c.Some? {
        cart := SetQuantity(cart, c.value, cart[c.value].quantity + 1);
      } else {
        cart := cart + [CartEntry(m.id, m.name, m.price, 1)];
      }
    }

    /** `removeFromCart`: nothing happens when the medicine has no line;
        otherwise its whole quantity goes back to its stock (if the page lists
        it) and only its line is deleted. */
    method RemoveFromCart(id: nat)
      requires WellFormed()
      modifies this
      ensures WellFormed()
      ensures Page(medicines, cart) == RemovedFromCart(old(medicines), old(cart), id)
    {
      assert DistinctLines(RemovedFromCart(medicines, cart, id).cart) by {
        RemoveFromCartKeepsUnits(medicines, cart, id);
      }
      var c := FindEntry(cart, id);
      if c.None? {
        return;
      }
      var i := c.value;
      var item := cart[i];
      var k := FindMedicine(medicines, id);
      if k.Some? {
        medicines := SetStock(medicines, k.value, medicines[k.value].stock + item.quantity);
      }
      cart := RemoveLine(cart, i);
    }

    /** `updateCartItemQuantity`: nothing happens for a medicine without a
        line or not listed, nor for an increase when its stock is exhausted;
        otherwise `change` units move from stock to the line, and a line left
        with no units is removed, its units going back to stock. */
    method UpdateCartItemQuantity(id: nat, change: int)
      requires Valid()
      modifies this
      ensures Valid()
      ensures Page(medicines, cart) == QuantityUpdated(old(medicines), old(cart), id, change)
    {
      assert DistinctLines(QuantityUpdated(medicines, cart, id, change).cart) &&
             LinesPositive(QuantityUpdated(medicines, cart, id, change).cart) by {
        UpdateKeepsUnits(medicines, cart, id, change);
      }
      var c := FindEntry(cart, id);
      if c.None? {
        return;
      }
      var k := FindMedicine(medicines, id);
      if k.None? {
        return;
      }
      if change > 0 && medicines[k.value].stock <= 0 {
        return;   // "No more stock available"
      }
      var i := c.value;
      cart := SetQuantity(cart, i, cart[i].quantity + change);
      medicines := SetStock(medicines, k.value, medicines[k.value].stock - change);
      if cart[i].quantity <= 0 {
        assert QuantityUpdated(old(medicines), old(cart), id, change) == RemovedFromCart(medicines, cart, id);
        RemoveFromCart(id);
        return;
      }
      assert QuantityUpdated(old(medicines), old(cart), id, change) == Page(medicines, cart);
    }
  }

  lemma {:induction false} ItemCountUpdate(cart: seq<CartEntry>, c: nat, q: int)
    requires c < |cart|
    ensures ItemCount(cart[c := cart[c].(quantity := q)]) == ItemCount(cart) + q - cart[c].quantity
    decreases |cart|
  {
    var last := |cart| - 1;
    if c < last {
      assert cart[c := cart[c].(quantity := q)][..last] == cart[..last][c := cart[c].(quantity := q)];
      ItemCountUpdate(cart[..last], c, q);
    } else {
      assert cart[c := cart[c].(quantity := q)][..last] == cart[..last];
    }
  }
}
