/** The admin products page of src/admin/pages/Products.tsx: the
    case-insensitive search over name and brand combined with the category
    filter, and the per-category counts. The page count of its table is
    Lists.TablePages. */
module AdminProducts {
  import opened Wrappers
  import opened Lists
  import opened Text

  /** A product's category is one of three (src/admin/utils/mockData.ts). */
  datatype Category = Top | Bottom | Shoes

  datatype MockProduct = MockProduct(id: string, name: string, brand: string, category: Category, price: int,
                                     imageUrl: Option<string>, externalUrl: string, isAvailable: bool,
                                     createdAt: string)

  function CategoryName(c: Category): string {
    match c
    case Top => "top"
    case Bottom => "bottom"
    case Shoes => "shoes"
  }

  /** The search box: the lower-cased term occurs in the lower-cased name
      or brand. */
  predicate MatchesSearch(term: string, p: MockProduct) {
    Contains(ToLower(p.name), ToLower(term)) || Contains(ToLower(p.brand), ToLower(term))
  }

  predicate Kept(term: string, categoryFilter: string, p: MockProduct) {
    MatchesSearch(term, p) && (categoryFilter == "all" || CategoryName(p.category) == categoryFilter)
  }

  /** `filteredProducts`: the products the search and the category filter
      both keep, in catalogue order. */
  function FilteredProducts(products: seq<MockProduct>, term: string, categoryFilter: string): (r: seq<MockProduct>)
    ensures forall i :: 0 <= i < |r| ==> r[i] in products && Kept(term, categoryFilter, r[i])
    ensures forall i :: 0 <= i < |products| && Kept(term, categoryFilter, products[i]) ==> products[i] in r
    ensures forall p :: multiset(r)[p] == if Kept(term, categoryFilter, p) then multiset(products)[p] else 0
  {
    FilterMultiplicity(products, p => Kept(term, categoryFilter, p));
    Filter(products, p => Kept(term, categoryFilter, p))
  }

  lemma LowerCharIdempotent(c: char)
    ensures LowerChar(LowerChar(c)) == LowerChar(c)
  {
  }

  /** The search ignores ASCII case: a term and its lower-cased form match
      the same products. */
  lemma SearchIgnoresCase(term: string, p: MockProduct)
    ensures MatchesSearch(ToLower(term), p) <==> MatchesSearch(term, p)
  {
    forall i | 0 <= i < |term|
      ensures ToLower(ToLower(term))[i] == ToLower(term)[i]
    {
      LowerCharIdempotent(term[i]);
    }
    assert ToLower(ToLower(term)) == ToLower(term);
  }

  /** An empty search keeps every product, so with the category filter at
      "all" the table shows the whole catalogue, in order; any search keeps
      the catalogue order. */
  lemma FilteredProductsShape(products: seq<MockProduct>, term: string, categoryFilter: string)
    ensures forall p :: MatchesSearch("", p)
    ensures FilteredProducts(products, "", "all") == products
    ensures IsSubsequence(FilteredProducts(products, term, categoryFilter), products)
  {
    forall p
      ensures MatchesSearch("", p)
    {
      assert OccursAt(ToLower(p.name), ToLower(""), 0);
    }
    FilterAllPass(products, p => Kept("", "all", p));
    FilterIsSubsequence(products, p => Kept(term, categoryFilter, p));
  }

  predicate IsTop(p: MockProduct) {
    p.category == Top
  }

  predicate IsBottom(p: MockProduct) {
    p.category == Bottom
  }

  predicate IsShoes(p: MockProduct) {
    p.category == Shoes
  }

  predicate TopOrBottom(p: MockProduct) {
    p.category == Top || p.category == Bottom
  }

  predicate AnyProduct(p: MockProduct) {
    true
  }

  function Price(p: MockProduct): int {
    p.price
  }

  /** `topCount`, `bottomCount`, `shoesCount`. */
  function TopCount(products: seq<MockProduct>): nat {
    |Filter(products, IsTop)|
  }

  function BottomCount(products: seq<MockProduct>): nat {
    |Filter(products, IsBottom)|
  }

  function ShoesCount(products: seq<MockProduct>): nat {
    |Filter(products, IsShoes)|
  }

  /** Every product has exactly one of the three categories, so the three
      counts add up to the catalogue size. */
  lemma CategoryCountsPartition(products: seq<MockProduct>)
    ensures TopCount(products) + BottomCount(products) + ShoesCount(products) == |products|
  {
    assert TopCount(products) + BottomCount(products) == |Filter(products, TopOrBottom)| by {
      FilterSplit(products, IsTop, IsBottom, TopOrBottom, Price);
    }
    assert |Filter(products, TopOrBottom)| + ShoesCount(products) == |Filter(products, AnyProduct)| by {
      FilterSplit(products, TopOrBottom, IsShoes, AnyProduct, Price);
    }
    FilterAllPass(products, AnyProduct);
  }
}
