/** The home screen's product list: the catalogue filtered by a
    case-insensitive search on the name and by the selected category chip. */
module HomeScreen {
  import opened Types
  import opened Seqs

  const Placeholder: string := "/placeholder.svg?height=200&width=200"

  /** The home catalogue; these entries carry no 'new' badge. */
  const MockProducts: seq<Product> := [
    Product("1", "Premium Cotton T-Shirts", 299, 399, 50, Placeholder, "Fashion", 42, "Fashion Hub Ltd.", 25, false),
    Product("2", "Wireless Bluetooth Earbuds", 1299, 1999, 25, Placeholder, "Electronics", 45, "Tech Solutions", 35, false),
    Product("3", "Kitchen Storage Containers Set", 599, 799, 30, Placeholder, "Home & Kitchen", 41, "Home Essentials", 25, false),
    Product("4", "Sports Water Bottles", 199, 299, 100, Placeholder, "Sports", 43, "Sports World", 33, false),
    Product("5", "LED Desk Lamps", 899, 1299, 20, Placeholder, "Electronics", 44, "Lighting Co.", 31, false),
    Product("6", "Face Care Beauty Kit", 799, 1199, 40, Placeholder, "Beauty", 40, "Beauty Plus", 33, false)
  ]

  /** The category chips, 'All' first. */
  const Categories: seq<string> := ["All", "Electronics", "Fashion", "Home & Kitchen", "Beauty", "Sports", "Books", "Toys"]

  function LowerChar(c: char): (l: char)
    ensures 'A' <= c <= 'Z' ==> l as int == c as int + 32
    ensures !('A' <= c <= 'Z') ==> l == c
  {
    if 'A' <= c <= 'Z' then (c as int + 32) as char else c
  }

  /** String.prototype.toLowerCase on ASCII letters. */
  function ToLower(s: string): (l: string)
    ensures |l| == |s|
    ensures forall i :: 0 <= i < |s| ==> l[i] == LowerChar(s[i])
  {
    seq(|s|, i requires 0 <= i < |s| => LowerChar(s[i]))
  }

  /** `needle` sits in `hay` starting at index `i`. */
  predicate OccursAt(hay: string, needle: string, i: int) {
    0 <= i <= |hay| - |needle| && hay[i..i + |needle|] == needle
  }

  /** String.prototype.includes: `needle` occurs in `hay` at some position. */
  function Includes(hay: string, needle: string): (r: bool)
    ensures r <==> exists i :: OccursAt(hay, needle, i)
    decreases |hay|
  {
    if needle <= hay then
      assert OccursAt(hay, needle, 0);
      true
    else if hay == [] then false
    else
      OccursLater(hay, needle);
      Includes(hay[1..], needle)
  }

  /** When `needle` is not a prefix of `hay`, it occurs in `hay` exactly when
      it occurs in the tail. */
  lemma OccursLater(hay: string, needle: string)
    requires hay != [] && !(needle <= hay)
    ensures (exists i :: OccursAt(hay, needle, i)) <==> (exists i :: OccursAt(hay[1..], needle, i))
  {
    forall i | OccursAt(hay[1..], needle, i)
      ensures OccursAt(hay, needle, i + 1)
    {
      assert hay[i + 1..i + 1 + |needle|] == hay[1..][i..i + |needle|];
    }
    forall i | OccursAt(hay, needle, i)
      ensures OccursAt(hay[1..], needle, i - 1)
    {
      assert i != 0;
      assert hay[1..][i - 1..i - 1 + |needle|] == hay[i..i + |needle|];
    }
  }

  /** The filter's predicate for a query and a selected chip. */
  function Matches(query: string, category: string): Product -> bool {
    (p: Product) =>
      Includes(ToLower(p.name), ToLower(query)) && (category == "All" || p.category == category)
  }

  /** filteredProducts over a catalogue: exactly the matching products, in
      catalogue order. */
  function Search(products: seq<Product>, query: string, category: string): (r: seq<Product>)
    ensures |r| <= |products|
    ensures forall i :: 0 <= i < |r| ==> r[i] in products && Matches(query, category)(r[i])
    ensures forall i :: 0 <= i < |products| && Matches(query, category)(products[i]) ==> products[i] in r
    ensures IsSubsequence(r, products)
  {
    FilterIsSubsequence(products, Matches(query, category));
    Filter(products, Matches(query, category))
  }

  /** The products listed (and counted in the "n items" label). */
  function FilteredProducts(query: string, category: string): seq<Product> {
    Search(MockProducts, query, category)
  }

  /** An empty query matches every name, so with 'All' nothing is dropped. */
  lemma EmptyQueryListsAll(products: seq<Product>)
    ensures Search(products, "", "All") == products
  {
    forall i | 0 <= i < |products|
      ensures Matches("", "All")(products[i])
    {
      assert OccursAt(ToLower(products[i].name), "", 0);
    }
    FilterKeepsAll(products, Matches("", "All"));
  }

  /** With 'All' selected only the query decides. */
  lemma AllCategoryIsSearchOnly(query: string, p: Product)
    ensures Matches(query, "All")(p) <==> Includes(ToLower(p.name), ToLower(query))
  {
  }

  /** Searching "cotton" finds only the cotton T-shirts. */
  lemma CottonExample()
    ensures FilteredProducts("cotton", "All") == [MockProducts[0]]
  {
    var m := Matches("cotton", "All");
    assert ToLower("cotton") == "cotton";
    CottonInFirst();
    forall k | 1 <= k < |MockProducts|
      ensures !m(MockProducts[k])
    {
      NoCottonIn(k);
    }
    OnlyFirstKept(MockProducts, m);
  }

  lemma CottonInFirst()
    ensures Includes(ToLower(MockProducts[0].name), "cotton")
  {
    var n := MockProducts[0].name;
    assert n[8] == 'C' && n[9] == 'o' && n[10] == 't' && n[11] == 't' && n[12] == 'o' && n[13] == 'n';
    CottonFrom(ToLower(n), 8);
  }

  /** The other five names do not contain "cotton" in any letter case. */
  lemma NoCottonIn(k: int)
    requires 1 <= k < |MockProducts|
    ensures !Includes(ToLower(MockProducts[k].name), "cotton")
  {
    var name := MockProducts[k].name;
    forall i | 0 <= i < |name| - 2
      ensures !HasCot(name, i)
    {
      if k == 1 {
        NoCotIn1(i);
      } else if k == 2 {
        NoCotIn2(i);
      } else if k == 3 {
        NoCotIn3(i);
      } else if k == 4 {
        NoCotIn4(i);
      } else {
        NoCotIn5(i);
      }
    }
    NoCotton(name);
  }

  lemma OnlyFirstKept(s: seq<Product>, keep: Product -> bool)
    requires s != [] && keep(s[0])
    requires forall k :: 1 <= k < |s| ==> !keep(s[k])
    ensures Filter(s, keep) == [s[0]]
  {
  }

  /** "cot", in any letter case, starts at index `i` of `name`. */
  predicate HasCot(name: string, i: int)
    requires 0 <= i < |name| - 2
  {
    LowerChar(name[i]) == 'c' && LowerChar(name[i + 1]) == 'o' && LowerChar(name[i + 2]) == 't'
  }

  /** A name without "cot" in any letter case does not match "cotton". */
  lemma NoCotton(name: string)
    requires forall i :: 0 <= i < |name| - 2 ==> !HasCot(name, i)
    ensures !Includes(ToLower(name), "cotton")
  {
    var l := ToLower(name);
    forall i | OccursAt(l, "cotton", i)
      ensures false
    {
      CottonChars(l, i);
      assert HasCot(name, i);
    }
  }

  lemma CottonFrom(l: string, i: nat)
    requires i + 6 <= |l|
    requires l[i] == 'c' && l[i + 1] == 'o' && l[i + 2] == 't' && l[i + 3] == 't' && l[i + 4] == 'o' && l[i + 5] == 'n'
    ensures Includes(l, "cotton")
  {
    assert l[i..i + 6] == "cotton";
    assert OccursAt(l, "cotton", i);
  }

  lemma CottonChars(l: string, i: int)
    requires OccursAt(l, "cotton", i)
    ensures l[i] == 'c' && l[i + 1] == 'o' && l[i + 2] == 't'
  {
    assert l[i..i + 6][0] == l[i] && l[i..i + 6][1] == l[i + 1] && l[i..i + 6][2] == l[i + 2];
  }

  // Name by name: no "cot", in any letter case, at any index.

  lemma NoCotIn1(i: int)
    requires 0 <= i < |MockProducts[1].name| - 2
    ensures !HasCot(MockProducts[1].name, i)
  {
  }

  lemma NoCotIn2(i: int)
    requires 0 <= i < |MockProducts[2].name| - 2
    ensures !HasCot(MockProducts[2].name, i)
  {
  }

  lemma NoCotIn3(i: int)
    requires 0 <= i < |MockProducts[3].name| - 2
    ensures !HasCot(MockProducts[3].name, i)
  {
  }

  lemma NoCotIn4(i: int)
    requires 0 <= i < |MockProducts[4].name| - 2
    ensures !HasCot(MockProducts[4].name, i)
  {
  }

  lemma NoCotIn5(i: int)
    requires 0 <= i < |MockProducts[5].name| - 2
    ensures !HasCot(MockProducts[5].name, i)
  {
  }
}
