/**
 * Ranking and selection: `[...products].sort((a, b) => b.stock - a.stock).slice(0, postCount)`.
 * `Array.prototype.sort` is stable, so the copy is ordered by stock, highest first, and
 * products with equal stock stay in catalog order. The sort is written here as an
 * insertion sort over values; the catalog it is given is never changed.
 */
module Ranking {
  import opened Common
  import opened Catalog

  /** Stock never increases along the sequence. */
  ghost predicate ByStockDescending(s: seq<Product>) {
    forall i, j :: 0 <= i < j < |s| ==> s[i].stock >= s[j].stock
  }

  /** No two entries share a product id. */
  ghost predicate DistinctIds(s: seq<Product>) {
    forall i, j :: 0 <= i < j < |s| ==> s[i].id != s[j].id
  }

  /** The entries whose stock is `k`, in the order they appear. */
  function WithStock(s: seq<Product>, k: nat): seq<Product> {
    if s == [] then []
    else (if s[0].stock == k then [s[0]] else []) + WithStock(s[1..], k)
  }

  /** Every entry has at most `k` units of stock. */
  ghost predicate StockAtMost(s: seq<Product>, k: nat) {
    forall i :: 0 <= i < |s| ==> s[i].stock <= k
  }

  /**
   * Places `x` in front of the first entry whose stock is not above its own, so that it
   * precedes the entries of equal stock that come after it in the catalog.
   */
  function Insert(x: Product, s: seq<Product>): (r: seq<Product>)
    ensures |r| == |s| + 1
  {
    if s == [] || x.stock >= s[0].stock then [x] + s
    else [s[0]] + Insert(x, s[1..])
  }

  /** The stable sort by stock, highest first. */
  function SortByStock(s: seq<Product>): (r: seq<Product>)
    ensures |r| == |s|
  {
    if s == [] then [] else Insert(s[0], SortByStock(s[1..]))
  }

  /** Insertion adds `x` and loses nothing. */
  lemma {:induction false} InsertPermutes(x: Product, s: seq<Product>)
    ensures multiset(Insert(x, s)) == multiset(s) + multiset{x}
  {
    if !(s == [] || x.stock >= s[0].stock) {
      InsertPermutes(x, s[1..]);
      assert s == [s[0]] + s[1..];
    }
  }

  /** The ranking is a permutation of the catalog. */
  lemma {:induction false} SortByStockPermutes(s: seq<Product>)
    ensures multiset(SortByStock(s)) == multiset(s)
  {
    if s != [] {
      SortByStockPermutes(s[1..]);
      InsertPermutes(s[0], SortByStock(s[1..]));
      assert s == [s[0]] + s[1..];
    }
  }

  /** A product followed by an ordered sequence of no more stock is ordered. */
  lemma ConsDescending(a: Product, t: seq<Product>)
    requires ByStockDescending(t) && StockAtMost(t, a.stock)
    ensures ByStockDescending([a] + t)
  {
  }

  /** Insertion keeps a bound on stock that `x` also respects. */
  lemma {:induction false} InsertAtMost(x: Product, s: seq<Product>, k: nat)
    requires StockAtMost(s, k) && x.stock <= k
    ensures StockAtMost(Insert(x, s), k)
  {
    if !(s == [] || x.stock >= s[0].stock) {
      InsertAtMost(x, s[1..], k);
      var r := Insert(x, s);
      assert r == [s[0]] + Insert(x, s[1..]);
      assert forall i :: 1 <= i < |r| ==> r[i] == Insert(x, s[1..])[i - 1];
    }
  }

  /** Insertion into an ordered sequence keeps it ordered. */
  lemma {:induction false} InsertDescending(x: Product, s: seq<Product>)
    requires ByStockDescending(s)
    ensures ByStockDescending(Insert(x, s))
  {
    if s == [] || x.stock >= s[0].stock {
      assert StockAtMost(s, x.stock);
      ConsDescending(x, s);
    } else {
      var tail := s[1..];
      assert ByStockDescending(tail);
      InsertDescending(x, tail);
      assert StockAtMost(tail, s[0].stock);
      InsertAtMost(x, tail, s[0].stock);
      ConsDescending(s[0], Insert(x, tail));
    }
  }

  /** The ranking is ordered by stock, highest first. */
  lemma {:induction false} SortByStockDescending(s: seq<Product>)
    ensures ByStockDescending(SortByStock(s))
  {
    if s != [] {
      SortByStockDescending(s[1..]);
      InsertDescending(s[0], SortByStock(s[1..]));
    }
  }

  /** Inserting `x` adds it in front of the entries of its own stock and changes no other stock class. */
  lemma {:induction false} WithStockInsert(x: Product, s: seq<Product>, k: nat)
    ensures WithStock(Insert(x, s), k) == (if x.stock == k then [x] else []) + WithStock(s, k)
  {
    if s == [] || x.stock >= s[0].stock {
      assert ([x] + s)[1..] == s;
    } else {
      var rest := Insert(x, s[1..]);
      assert ([s[0]] + rest)[1..] == rest;
      WithStockInsert(x, s[1..], k);
    }
  }

  /** Stability: for every stock value, the products with that stock keep their catalog order. */
  lemma {:induction false} SortByStockStable(s: seq<Product>, k: nat)
    ensures WithStock(SortByStock(s), k) == WithStock(s, k)
  {
    if s != [] {
      SortByStockStable(s[1..], k);
      WithStockInsert(s[0], SortByStock(s[1..]), k);
    }
  }

  /** Sorting a sequence that is already in order leaves it as it is. */
  lemma {:induction false} SortByStockOfSorted(s: seq<Product>)
    requires ByStockDescending(s)
    ensures SortByStock(s) == s
  {
    if s != [] {
      SortByStockOfSorted(s[1..]);
      assert s == [s[0]] + s[1..];
    }
  }

  /**
   * Ranking twice is ranking once. This is also why the in-place sort of the catalog by
   * the live preview panel cannot change which products the generator picks.
   */
  lemma SortByStockIdempotent(s: seq<Product>)
    ensures SortByStock(SortByStock(s)) == SortByStock(s)
  {
    SortByStockDescending(s);
    SortByStockOfSorted(SortByStock(s));
  }

  /** Inserting a product whose id is new keeps ids distinct. */
  lemma {:induction false} InsertDistinct(x: Product, s: seq<Product>)
    requires DistinctIds(s)
    requires forall e :: e in s ==> e.id != x.id
    ensures DistinctIds(Insert(x, s))
  {
    if !(s == [] || x.stock >= s[0].stock) {
      InsertDistinct(x, s[1..]);
      var rest := Insert(x, s[1..]);
      InsertPermutes(x, s[1..]);
      forall e | e in rest ensures e.id != s[0].id {
        assert e in multiset(rest);
      }
    }
  }

  /** Sorting keeps catalog ids distinct. */
  lemma {:induction false} SortByStockDistinct(s: seq<Product>)
    requires DistinctIds(s)
    ensures DistinctIds(SortByStock(s))
  {
    if s != [] {
      SortByStockDistinct(s[1..]);
      var sorted := SortByStock(s[1..]);
      SortByStockPermutes(s[1..]);
      forall e | e in sorted ensures e.id != s[0].id {
        assert e in multiset(sorted);
        assert e in multiset(s[1..]);
      }
      InsertDistinct(s[0], sorted);
    }
  }

  /** `topProducts`: the first `postCount` entries of the ranked copy. */
  function TopProducts(products: seq<Product>, postCount: nat): (r: seq<Product>)
    ensures |r| == Min(postCount, |products|)
  {
    SortByStock(products)[..Min(postCount, |products|)]
  }

  /** The products `topProducts` leaves out. */
  function LeftOut(products: seq<Product>, postCount: nat): seq<Product> {
    SortByStock(products)[Min(postCount, |products|)..]
  }

  /** The selection is ordered by stock, highest first. */
  lemma TopProductsDescending(products: seq<Product>, postCount: nat)
    ensures ByStockDescending(TopProducts(products, postCount))
  {
    SortByStockDescending(products);
  }

  /** The selection and the products left out together make up the catalog. */
  lemma TopProductsSplitCatalog(products: seq<Product>, postCount: nat)
    ensures multiset(TopProducts(products, postCount)) + multiset(LeftOut(products, postCount)) == multiset(products)
    ensures forall p :: p in TopProducts(products, postCount) ==> p in products
  {
    var sorted := SortByStock(products);
    var m := Min(postCount, |products|);
    var top, rest := sorted[..m], sorted[m..];
    assert sorted == top + rest;
    SortByStockPermutes(products);
    forall p | p in top ensures p in products {
      assert p in multiset(sorted);
    }
  }

  /** No product left out has more stock than a selected one. */
  lemma TopProductsAreHighest(products: seq<Product>, postCount: nat)
    ensures forall a, b :: a in TopProducts(products, postCount) && b in LeftOut(products, postCount) ==> a.stock >= b.stock
  {
    var sorted := SortByStock(products);
    var m := Min(postCount, |products|);
    var top, rest := sorted[..m], sorted[m..];
    SortByStockDescending(products);
    forall a, b | a in top && b in rest ensures a.stock >= b.stock {
      var i :| 0 <= i < |top| && top[i] == a;
      var j :| 0 <= j < |rest| && rest[j] == b;
      assert sorted[i] == a && sorted[m + j] == b;
    }
  }

  /** No product appears twice in the selection when catalog ids are distinct. */
  lemma TopProductsDistinct(products: seq<Product>, postCount: nat)
    requires DistinctIds(products)
    ensures DistinctIds(TopProducts(products, postCount))
  {
    SortByStockDistinct(products);
  }

  /** The entries of stock `k` in a prefix are a prefix of the entries of stock `k` in the whole. */
  lemma {:induction false} WithStockPrefix(s: seq<Product>, m: nat, k: nat)
    requires m <= |s|
    ensures WithStock(s[..m], k) <= WithStock(s, k)
  {
    if m > 0 {
      assert s[..m][0] == s[0];
      assert s[..m][1..] == s[1..][..m - 1];
      WithStockPrefix(s[1..], m - 1, k);
    } else {
      assert s[..m] == [];
    }
  }

  /**
   * Ties at the cut go to catalog order: among products of equal stock, those selected
   * are the first ones of the catalog.
   */
  lemma TopProductsTies(products: seq<Product>, postCount: nat, k: nat)
    ensures WithStock(TopProducts(products, postCount), k) <= WithStock(products, k)
  {
    WithStockPrefix(SortByStock(products), Min(postCount, |products|), k);
    SortByStockStable(products, k);
  }

  /** A product goes after every entry with more stock and before the first one with no more. */
  lemma {:induction false} InsertAfter(x: Product, pre: seq<Product>, post: seq<Product>)
    requires forall i :: 0 <= i < |pre| ==> pre[i].stock > x.stock
    requires post == [] || x.stock >= post[0].stock
    ensures Insert(x, pre + post) == pre + [x] + post
  {
    if pre == [] {
      assert pre + post == post;
    } else {
      assert (pre + post)[0] == pre[0];
      assert (pre + post)[1..] == pre[1..] + post;
      InsertAfter(x, pre[1..], post);
    }
  }

  /** One step of the ranking: a product put in front of a catalog whose ranking is known. */
  lemma RankStep(x: Product, rest: seq<Product>, pre: seq<Product>, post: seq<Product>)
    requires SortByStock(rest) == pre + post
    requires forall i :: 0 <= i < |pre| ==> pre[i].stock > x.stock
    requires post == [] || x.stock >= post[0].stock
    ensures SortByStock([x] + rest) == pre + [x] + post
  {
    assert ([x] + rest)[0] == x;
    assert ([x] + rest)[1..] == rest;
    InsertAfter(x, pre, post);
  }
}
