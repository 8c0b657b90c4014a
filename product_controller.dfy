/**
 * The catalog listing: `List(category, page)` filters the repository's
 * products by an optional category, orders them by product id (a stable
 * sort), skips the earlier pages and takes one page, and reports the paging
 * totals next to them.
 */
module ProductControllers {
  import opened Wrappers
  import opened Domain

  /** The controller's page size, a public field initialised to 4. */
  const DefaultPageSize: int := 4
  /** The page shown when the request names none. */
  const DefaultPage: int := 1

  datatype PagingInfo = PagingInfo(currentPage: int, itemsPerPage: int, totalItems: nat)

  datatype ProductsListViewModel = ProductsListViewModel(
    products: seq<Product>,
    pagingInfo: PagingInfo,
    currentCategory: Option<string>)

  /** The `Where` condition: no category given, or the product's category equals it. */
  predicate InCategory(product: Product, category: Option<string>)
  {
    category.None? || product.category == category
  }

  /** `Where(p => category == null || p.Category == category)`, keeping order. */
  function Where(products: seq<Product>, category: Option<string>): (r: seq<Product>)
    ensures forall p :: p in r <==> p in products && InCategory(p, category)
    ensures |r| <= |products|
  {
    if |products| == 0 then []
    else
      var rest := Where(products[1..], category);
      assert forall p :: p in products <==> p == products[0] || p in products[1..] by {
        assert products == [products[0]] + products[1..];
      }
      (if InCategory(products[0], category) then [products[0]] else []) + rest
  }

  /** `Count(e => e.Category == category)`. */
  function CountInCategory(products: seq<Product>, category: Option<string>): nat
  {
    if |products| == 0 then 0
    else (if products[0].category == category then 1 else 0) + CountInCategory(products[1..], category)
  }

  /**
   * `TotalItems`: every product when no category is given, else a count of
   * those in it; either way, the number of products the `Where` keeps.
   */
  function TotalItems(products: seq<Product>, category: Option<string>): (r: nat)
    ensures r == |Where(products, category)|
  {
    if category.None? then
      NoCategoryKeepsAll(products);
      |products|
    else
      CountIsFilteredCount(products, category);
      CountInCategory(products, category)
  }

  predicate SortedById(s: seq<Product>)
  {
    forall i, j :: 0 <= i < j < |s| ==> s[i].id <= s[j].id
  }

  /** The products of `s` with the given id, in their order in `s`. */
  function WithId(s: seq<Product>, id: int): seq<Product>
  {
    if |s| == 0 then []
    else (if s[0].id == id then [s[0]] else []) + WithId(s[1..], id)
  }

  /** Inserts `x` in front of the first product whose id is not smaller than its own. */
  function Insert(x: Product, s: seq<Product>): (r: seq<Product>)
    ensures multiset(r) == multiset(s) + multiset{x}
  {
    if |s| == 0 then [x]
    else if x.id <= s[0].id then [x] + s
    else
      assert s == [s[0]] + s[1..];
      [s[0]] + Insert(x, s[1..])
  }

  lemma {:induction false} InsertSorted(x: Product, s: seq<Product>)
    requires SortedById(s)
    ensures SortedById(Insert(x, s))
  {
    if |s| > 0 && x.id > s[0].id {
      var rest := Insert(x, s[1..]);
      InsertSorted(x, s[1..]);
      forall k | 0 <= k < |rest| ensures s[0].id <= rest[k].id {
        assert rest[k] in multiset(rest);
        if rest[k] != x {
          assert rest[k] in multiset(s[1..]);
          var j :| 0 <= j < |s[1..]| && s[1..][j] == rest[k];
          assert s[j + 1] == rest[k];
        }
      }
    }
  }

  /** `OrderBy(p => p.ProductID)`: sorted by id and a permutation of the input. */
  function SortById(s: seq<Product>): (r: seq<Product>)
    ensures SortedById(r)
    ensures multiset(r) == multiset(s)
  {
    if |s| == 0 then []
    else
      assert s == [s[0]] + s[1..];
      var rest := SortById(s[1..]);
      InsertSorted(s[0], rest);
      Insert(s[0], rest)
  }

  /** `Skip(n)`: a non-positive count skips nothing, one past the end leaves nothing. */
  function Skip(s: seq<Product>, n: int): (r: seq<Product>)
    ensures |r| == |s| - Min(if n < 0 then 0 else n, |s|)
    ensures r == s[|s| - |r|..]
  {
    if n <= 0 then s else if n >= |s| then [] else s[n..]
  }

  /** `Take(n)`: a non-positive count takes nothing, one past the end takes all. */
  function Take(s: seq<Product>, n: int): (r: seq<Product>)
    ensures |r| == Min(if n < 0 then 0 else n, |s|)
    ensures r == s[..|r|]
  {
    if n <= 0 then [] else if n >= |s| then s else s[..n]
  }

  function Min(a: int, b: int): int
  {
    if a <= b then a else b
  }

  const MaxInt32: int := 0x7fff_ffff

  /**
   * C#'s unchecked `int` arithmetic: the low 32 bits of the exact result,
   * read as a two's-complement number.
   */
  function Int32(x: int): (r: int)
    ensures -MaxInt32 - 1 <= r <= MaxInt32
    ensures (x - r) % 0x1_0000_0000 == 0
    ensures -MaxInt32 - 1 <= x <= MaxInt32 ==> r == x
  {
    var m := x % 0x1_0000_0000;
    if m <= MaxInt32 then m else m - 0x1_0000_0000
  }

  /**
   * The count `Skip` is given, `(page - 1) * PageSize` in `int`. Wrapping the
   * exact product gives the same low 32 bits as wrapping `page - 1` first.
   */
  function PageOffset(page: int, pageSize: int): int
  {
    Int32((page - 1) * pageSize)
  }

  /**
   * `Skip(offset).Take(count)`: at most `count` products, in their order;
   * for a non-negative offset and count, the slice `[offset, offset + count)`
   * clipped to the length.
   */
  function Page(all: seq<Product>, offset: int, count: int): (shown: seq<Product>)
    ensures forall p :: p in shown ==> p in all
    ensures SortedById(all) ==> SortedById(shown)
    ensures |shown| <= if count < 0 then 0 else count
    ensures offset >= 0 && count >= 0 ==> shown == all[Min(offset, |all|)..Min(offset + count, |all|)]
  {
    var shown := Take(Skip(all, offset), count);
    var a := if offset <= 0 then 0 else Min(offset, |all|);
    var b := if count <= 0 then a else Min(a + count, |all|);
    assert shown == all[a..b];
    shown
  }

  /** The catalog page for `category` and `page`, `pageSize` products a page. */
  function List(products: seq<Product>, category: Option<string>, page: int, pageSize: int)
    : (vm: ProductsListViewModel)
    ensures vm.pagingInfo.currentPage == page && vm.pagingInfo.itemsPerPage == pageSize
    ensures vm.currentCategory == category
    ensures vm.pagingInfo.totalItems == |Where(products, category)|
    ensures forall p :: p in vm.products ==> p in products && InCategory(p, category)
    ensures SortedById(vm.products)
    ensures |vm.products| <= if pageSize < 0 then 0 else pageSize
  {
    var all := SortById(Where(products, category));
    var shown := Page(all, PageOffset(page, pageSize), pageSize);
    assert forall p :: p in shown ==> p in Where(products, category) by {
      forall p | p in shown ensures p in Where(products, category) {
        assert p in multiset(all);
      }
    }
    ProductsListViewModel(shown, PagingInfo(page, pageSize, TotalItems(products, category)), category)
  }

  /**
   * `List(category)` with the defaults, page 1 and the initial page size of
   * 4: the first four products of the category in id order.
   */
  function ListFirstPage(products: seq<Product>, category: Option<string>): (vm: ProductsListViewModel)
    ensures vm.pagingInfo.currentPage == 1 && vm.pagingInfo.itemsPerPage == 4
    ensures var all := SortById(Where(products, category));
      vm.products == all[..Min(4, |all|)]
  {
    var all := SortById(Where(products, category));
    var vm := List(products, category, DefaultPage, DefaultPageSize);
    assert vm.products == Page(all, 0, 4);
    vm
  }

  // ---------------------------------------------------------------------------
  // Properties of the listing

  /** With no category nothing is filtered out. */
  lemma {:induction false} NoCategoryKeepsAll(products: seq<Product>)
    ensures Where(products, None) == products
  {
    if |products| > 0 {
      NoCategoryKeepsAll(products[1..]);
      assert products == [products[0]] + products[1..];
    }
  }

  lemma {:induction false} CountIsFilteredCount(products: seq<Product>, category: Option<string>)
    requires category.Some?
    ensures CountInCategory(products, category) == |Where(products, category)|
  {
    if |products| > 0 {
      CountIsFilteredCount(products[1..], category);
    }
  }

  /**
   * For `page >= 1` whose offset `(page - 1) * pageSize` fits in an `int`,
   * the listed products are exactly the slice `[offset, offset + pageSize)`
   * of the filtered, sorted products, clipped to their number.
   */
  lemma PageIsSlice(products: seq<Product>, category: Option<string>, page: int, pageSize: nat, offset: nat)
    requires page >= 1 && offset == (page - 1) * pageSize && offset <= MaxInt32
    ensures var all := SortById(Where(products, category));
      List(products, category, page, pageSize).products ==
      all[Min(offset, |all|)..Min(offset + pageSize, |all|)]
  {
    var all := SortById(Where(products, category));
    OffsetFits(page, pageSize, offset);
    assert List(products, category, page, pageSize).products == Page(all, offset, pageSize);
  }

  lemma OffsetFits(page: int, pageSize: int, offset: int)
    requires offset == (page - 1) * pageSize && 0 <= offset <= MaxInt32
    ensures PageOffset(page, pageSize) == offset
  {
  }

  /**
   * Past the range of `int` the offset wraps: page 536870913 of four
   * products a page has the offset 2^31, which wraps to the most negative
   * `int`, so `Skip` skips nothing and the first page is shown again.
   */
  lemma HugePageWrapsToFirst(products: seq<Product>, category: Option<string>)
    ensures List(products, category, 536870913, 4).products == ListFirstPage(products, category).products
  {
    assert PageOffset(536870913, 4) == -0x8000_0000;
    assert PageOffset(1, 4) == 0;
  }

  /** Position `i` is at position `k` of page `page`, which starts at `offset`. */
  lemma PageOfPosition(i: nat, pageSize: int) returns (page: int, offset: nat, k: nat)
    requires pageSize > 0
    ensures page == i / pageSize + 1 && k == i % pageSize
    ensures page >= 1 && offset == (page - 1) * pageSize
    ensures offset + k == i && k < pageSize
  {
    page, k := i / pageSize + 1, i % pageSize;
    offset := (page - 1) * pageSize;
  }

  /**
   * The pages cover the sorted products one after the other: with a positive
   * page size, the product at position `i` is at position `i % pageSize` of
   * page `i / pageSize + 1`.
   */
  lemma PagesCoverAll(products: seq<Product>, category: Option<string>, pageSize: int, i: nat)
    requires pageSize > 0 && i <= MaxInt32
    requires i < |SortById(Where(products, category))|
    ensures var vm := List(products, category, i / pageSize + 1, pageSize);
      i % pageSize < |vm.products| &&
      vm.products[i % pageSize] == SortById(Where(products, category))[i]
  {
    var page, offset, k := PageOfPosition(i, pageSize);
    PositionOnPage(products, category, page, pageSize, offset, k);
  }

  lemma PositionOnPage(products: seq<Product>, category: Option<string>, page: int, pageSize: nat, offset: nat, k: nat)
    requires page >= 1 && offset == (page - 1) * pageSize && k < pageSize && offset <= MaxInt32
    requires offset + k < |SortById(Where(products, category))|
    ensures var vm := List(products, category, page, pageSize);
      k < |vm.products| && vm.products[k] == SortById(Where(products, category))[offset + k]
  {
    var all := SortById(Where(products, category));
    PageIsSlice(products, category, page, pageSize, offset);
    var shown := List(products, category, page, pageSize).products;
    assert shown == all[offset..Min(offset + pageSize, |all|)];
    assert shown[k] == all[offset + k];
  }

  /**
   * The sort is stable: the products sharing an id come out in the order
   * they had in the input.
   */
  lemma {:induction false} SortIsStable(s: seq<Product>, id: int)
    ensures WithId(SortById(s), id) == WithId(s, id)
  {
    if |s| > 0 {
      SortIsStable(s[1..], id);
      InsertWithId(s[0], SortById(s[1..]), id);
    }
  }

  /**
   * The filter keeps repository order: among the products with a given id,
   * it keeps those in the category, in the order the repository has them.
   */
  lemma {:induction false} WhereKeepsOrder(products: seq<Product>, category: Option<string>, id: int)
    ensures WithId(Where(products, category), id) == Where(WithId(products, id), category)
  {
    if |products| > 0 {
      var p := products[0];
      WhereKeepsOrder(products[1..], category, id);
      var kept := if InCategory(p, category) then [p] else [];
      WithIdAppend(kept, Where(products[1..], category), id);
      if p.id == id {
        assert WithId(products, id) == [p] + WithId(products[1..], id);
        assert ([p] + WithId(products[1..], id))[1..] == WithId(products[1..], id);
      } else {
        assert WithId(products, id) == WithId(products[1..], id);
      }
    }
  }

  /**
   * Products sharing an id are listed in repository order: the listing's
   * products with that id are the repository's, filtered by the category.
   */
  lemma ListingKeepsRepositoryOrder(products: seq<Product>, category: Option<string>, id: int)
    ensures WithId(SortById(Where(products, category)), id) == Where(WithId(products, id), category)
  {
    SortIsStable(Where(products, category), id);
    WhereKeepsOrder(products, category, id);
  }

  lemma {:induction false} WithIdAppend(a: seq<Product>, b: seq<Product>, id: int)
    ensures WithId(a + b, id) == WithId(a, id) + WithId(b, id)
  {
    if |a| > 0 {
      assert (a + b)[1..] == a[1..] + b;
      WithIdAppend(a[1..], b, id);
    } else {
      assert a + b == b;
    }
  }

  lemma {:induction false} InsertWithId(x: Product, s: seq<Product>, id: int)
    ensures WithId(Insert(x, s), id) == (if x.id == id then [x] else []) + WithId(s, id)
  {
    if |s| == 0 {
    } else if x.id <= s[0].id {
      assert ([x] + s)[1..] == s;
    } else {
      InsertWithId(x, s[1..], id);
      WithIdCons(s[0], Insert(x, s[1..]), id);
    }
  }

  lemma WithIdCons(y: Product, t: seq<Product>, id: int)
    ensures WithId([y] + t, id) == (if y.id == id then [y] else []) + WithId(t, id)
  {
    assert ([y] + t)[1..] == t;
  }
}
