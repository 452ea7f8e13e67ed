/** The category screen: the category's products, sorted by the chosen key.
    Array.prototype.sort is stable, so each comparator sort is modelled as a
    stable insertion sort on an integer rank; "high to low" orders sort on
    the negated key. */
module CategoryScreen {
  import opened Types
  import opened Seqs

  const Placeholder: string := "/placeholder.svg?height=200&width=200"

  /** The screen's own catalogue, before the category filter. */
  const MockCategoryProducts: seq<Product> := [
    Product("1", "Premium Cotton T-Shirts", 299, 399, 50, Placeholder, "Fashion", 42, "Fashion Hub Ltd.", 25, false),
    Product("7", "Formal Business Shirts", 599, 799, 30, Placeholder, "Fashion", 43, "Corporate Wear Co.", 25, true),
    Product("8", "Casual Polo T-Shirts", 399, 549, 40, Placeholder, "Fashion", 41, "Fashion Hub Ltd.", 27, false),
    Product("9", "Designer Hoodies", 899, 1299, 25, Placeholder, "Fashion", 44, "Urban Style", 31, true)
  ]

  function InCategory(category: string): Product -> bool {
    (p: Product) => p.category == category
  }

  /** The products the screen lists for `category`. */
  function CategoryProducts(category: string): (r: seq<Product>)
    ensures forall i :: 0 <= i < |r| ==> r[i].category == category && r[i] in MockCategoryProducts
    ensures IsSubsequence(r, MockCategoryProducts)
  {
    FilterIsSubsequence(MockCategoryProducts, InCategory(category));
    Filter(MockCategoryProducts, InCategory(category))
  }

  /** Every mock product is in 'Fashion', so that category lists all four and
      any other lists none. */
  lemma CategoryProductsCases(category: string)
    ensures category == "Fashion" ==> CategoryProducts(category) == MockCategoryProducts
    ensures category != "Fashion" ==> CategoryProducts(category) == []
  {
    if category == "Fashion" {
      FilterKeepsAll(MockCategoryProducts, InCategory(category));
    }
  }

  datatype SortOrder = PriceLow | PriceHigh | ByRating | ByDiscount

  /** The select's values; 'popular' and anything else leave the list as is. */
  function ParseSort(sortType: string): (o: Option<SortOrder>)
    ensures o == Some(PriceLow) <==> sortType == "price-low"
    ensures o == Some(PriceHigh) <==> sortType == "price-high"
    ensures o == Some(ByRating) <==> sortType == "rating"
    ensures o == Some(ByDiscount) <==> sortType == "discount"
  {
    if sortType == "price-low" then Some(PriceLow)
    else if sortType == "price-high" then Some(PriceHigh)
    else if sortType == "rating" then Some(ByRating)
    else if sortType == "discount" then Some(ByDiscount)
    else None
  }

  /** The comparator `(a, b) => Rank(a) - Rank(b)` of each order. */
  function Rank(order: SortOrder): Product -> int {
    match order
    case PriceLow => (p: Product) => p.price
    case PriceHigh => (p: Product) => -p.price
    case ByRating => (p: Product) => -p.rating
    case ByDiscount => (p: Product) => -p.discount
  }

  predicate SortedBy(s: seq<Product>, key: Product -> int) {
    forall i, j :: 0 <= i < j < |s| ==> key(s[i]) <= key(s[j])
  }

  /** Put `x` before the first element whose rank is not below its own. */
  function Insert(x: Product, s: seq<Product>, key: Product -> int): (r: seq<Product>)
    ensures |r| == |s| + 1
  {
    if s == [] then [x]
    else if key(x) <= key(s[0]) then [x] + s
    else [s[0]] + Insert(x, s[1..], key)
  }

  lemma {:induction false} InsertAddsOne(x: Product, s: seq<Product>, key: Product -> int)
    ensures multiset(Insert(x, s, key)) == multiset(s) + multiset{x}
    decreases |s|
  {
    if s != [] {
      assert s == [s[0]] + s[1..];
      InsertAddsOne(x, s[1..], key);
    }
  }

  /** Insertion sort, inserting the elements from the last to the first so
      that an earlier element goes in front of later ones of equal rank. */
  function StableSort(s: seq<Product>, key: Product -> int): (r: seq<Product>)
    ensures |r| == |s|
  {
    if s == [] then [] else Insert(s[0], StableSort(s[1..], key), key)
  }

  /** The sort only reorders. */
  lemma {:induction false} StableSortPermutes(s: seq<Product>, key: Product -> int)
    ensures multiset(StableSort(s, key)) == multiset(s)
    decreases |s|
  {
    if s != [] {
      assert s == [s[0]] + s[1..];
      StableSortPermutes(s[1..], key);
      InsertAddsOne(s[0], StableSort(s[1..], key), key);
    }
  }

  /** A lower bound on the ranks of `x` and of `s` bounds the result. */
  lemma {:induction false} InsertBounded(x: Product, s: seq<Product>, key: Product -> int, b: int)
    requires b <= key(x)
    requires forall i :: 0 <= i < |s| ==> b <= key(s[i])
    ensures forall i :: 0 <= i < |Insert(x, s, key)| ==> b <= key(Insert(x, s, key)[i])
    decreases |s|
  {
    if s != [] && key(x) > key(s[0]) {
      InsertBounded(x, s[1..], key, b);
    }
  }

  lemma {:induction false} InsertSorted(x: Product, s: seq<Product>, key: Product -> int)
    requires SortedBy(s, key)
    ensures SortedBy(Insert(x, s, key), key)
    decreases |s|
  {
    if s != [] && key(x) > key(s[0]) {
      InsertSorted(x, s[1..], key);
      InsertBounded(x, s[1..], key, key(s[0]));
    }
  }

  lemma {:induction false} StableSortSorted(s: seq<Product>, key: Product -> int)
    ensures SortedBy(StableSort(s, key), key)
    decreases |s|
  {
    if s != [] {
      StableSortSorted(s[1..], key);
      InsertSorted(s[0], StableSort(s[1..], key), key);
    }
  }

  function HasRank(key: Product -> int, v: int): Product -> bool {
    (p: Product) => key(p) == v
  }

  /** Inserting `x` into a sorted list puts it in front of every element of
      its own rank and does not reorder the others. */
  lemma {:induction false} InsertKeepsTies(x: Product, s: seq<Product>, key: Product -> int, v: int)
    requires SortedBy(s, key)
    ensures Filter(Insert(x, s, key), HasRank(key, v)) ==
            if key(x) == v then [x] + Filter(s, HasRank(key, v)) else Filter(s, HasRank(key, v))
    decreases |s|
  {
    if s == [] {
    } else if key(x) <= key(s[0]) {
      if key(x) == v {
        assert ([x] + s)[1..] == s;
      } else {
        assert ([x] + s)[1..] == s;
      }
    } else {
      InsertKeepsTies(x, s[1..], key, v);
      assert ([s[0]] + Insert(x, s[1..], key))[1..] == Insert(x, s[1..], key);
      if key(x) == v {
        // s[0] ranks strictly below x, so it is not of rank v.
        assert !HasRank(key, v)(s[0]);
      }
    }
  }

  /** Stability: for every rank, the elements of that rank appear in the
      sorted list in the order they had in the input. */
  lemma {:induction false} StableSortKeepsTies(s: seq<Product>, key: Product -> int, v: int)
    ensures Filter(StableSort(s, key), HasRank(key, v)) == Filter(s, HasRank(key, v))
    decreases |s|
  {
    if s != [] {
      StableSortKeepsTies(s[1..], key, v);
      StableSortSorted(s[1..], key);
      InsertKeepsTies(s[0], StableSort(s[1..], key), key, v);
    }
  }

  /** sortProducts on a copy of the list: a known key sorts stably on its
      rank, anything else returns the list itself. */
  function SortProducts(products: seq<Product>, sortType: string): (r: seq<Product>)
    ensures multiset(r) == multiset(products) && |r| == |products|
    ensures ParseSort(sortType).None? ==> r == products
    ensures ParseSort(sortType).Some? ==> SortedBy(r, Rank(ParseSort(sortType).value))
  {
    match ParseSort(sortType)
    case None => products
    case Some(order) =>
      StableSortSorted(products, Rank(order));
      StableSortPermutes(products, Rank(order));
      StableSort(products, Rank(order))
  }

  /** The four comparator sorts in the source's own terms. */
  lemma SortDirections(products: seq<Product>)
    ensures var r := SortProducts(products, "price-low");
            forall i, j :: 0 <= i < j < |r| ==> r[i].price <= r[j].price
    ensures var r := SortProducts(products, "price-high");
            forall i, j :: 0 <= i < j < |r| ==> r[i].price >= r[j].price
    ensures var r := SortProducts(products, "rating");
            forall i, j :: 0 <= i < j < |r| ==> r[i].rating >= r[j].rating
    ensures var r := SortProducts(products, "discount");
            forall i, j :: 0 <= i < j < |r| ==> r[i].discount >= r[j].discount
  {
  }

  /** Ties keep their input order under every sort. */
  lemma SortIsStable(products: seq<Product>, sortType: string, v: int)
    requires ParseSort(sortType).Some?
    ensures var key := Rank(ParseSort(sortType).value);
            Filter(SortProducts(products, sortType), HasRank(key, v)) == Filter(products, HasRank(key, v))
  {
    StableSortKeepsTies(products, Rank(ParseSort(sortType).value), v);
  }

  /** The Fashion list by price, low to high: ids 1, 8, 7, 9. */
  lemma FashionByPriceExample()
    ensures var r := SortProducts(CategoryProducts("Fashion"), "price-low");
            |r| == 4 && r[0].id == "1" && r[1].id == "8" && r[2].id == "7" && r[3].id == "9"
  {
    CategoryProductsCases("Fashion");
    var s := MockCategoryProducts;
    PriceLowOrder(s[0], s[1], s[2], s[3]);
    assert s == [s[0], s[1], s[2], s[3]];
  }

  lemma PriceLowOrder(p0: Product, p1: Product, p2: Product, p3: Product)
    requires p0.price < p2.price < p1.price < p3.price
    ensures StableSort([p0, p1, p2, p3], Rank(PriceLow)) == [p0, p2, p1, p3]
  {
    PriceLowTail(p1, p2, p3);
    StableSortCons(p0, [p1, p2, p3], Rank(PriceLow));
    assert [p0] + [p2, p1, p3] == [p0, p2, p1, p3];
  }

  lemma StableSortCons(x: Product, s: seq<Product>, key: Product -> int)
    ensures StableSort([x] + s, key) == Insert(x, StableSort(s, key), key)
  {
    assert ([x] + s)[1..] == s;
  }

  lemma PriceLowTail(p1: Product, p2: Product, p3: Product)
    requires p2.price < p1.price < p3.price
    ensures StableSort([p1, p2, p3], Rank(PriceLow)) == [p2, p1, p3]
  {
    var key := Rank(PriceLow);
    StableSortCons(p3, [], key);
    StableSortCons(p2, [p3], key);
    StableSortCons(p1, [p2, p3], key);
    assert [p3] + [] == [p3] && [p2] + [p3] == [p2, p3] && [p1] + [p2, p3] == [p1, p2, p3];
    assert Insert(p1, [p3], key) == [p1, p3];
    assert [p2, p3][1..] == [p3];
  }
}
