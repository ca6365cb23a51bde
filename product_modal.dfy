/**
 * The product modal hook: whether the "add product" dialog is open, adding a
 * product through the store (which also closes the dialog), and the last
 * product code, which the product form continues from.
 */
module ProductModal {
  import opened JsValue
  import opened JsString
  import opened Types
  import Store

  /**
   * The code that sorts first when the products are ordered by code,
   * descending; absent when there are no products. The source sorts a copy
   * of the product list, so the store's own order is untouched; here that is
   * simply a function of the list.
   */
  function LastProductCode(products: seq<Product>): (r: Option<string>)
    ensures r.None? <==> |products| == 0
    decreases |products|
  {
    if |products| == 0 then None
    else
      var rest := LastProductCode(products[1..]);
      if rest.None? || StrLe(rest.value, products[0].code) then Some(products[0].code) else rest
  }

  predicate HasCode(products: seq<Product>, code: string)
  {
    exists k :: 0 <= k < |products| && products[k].code == code
  }

  predicate IsGreatestCode(products: seq<Product>, code: string)
  {
    HasCode(products, code) && forall k :: 0 <= k < |products| ==> StrLe(products[k].code, code)
  }

  /** The last code is the code of one of the products, and no code sorts after it. */
  lemma {:induction false} LastProductCodeIsGreatest(products: seq<Product>)
    requires |products| > 0
    ensures IsGreatestCode(products, LastProductCode(products).value)
    decreases |products|
  {
    var r := LastProductCode(products).value;
    var c := products[0].code;
    if |products| == 1 {
      StrLeReflexive(c);
    } else {
      var tail := products[1..];
      var m := LastProductCode(tail).value;
      LastProductCodeIsGreatest(tail);
      var j :| 0 <= j < |tail| && tail[j].code == m;
      if StrLe(m, c) {
        assert r == c;
        StrLeReflexive(c);
        forall k | 0 <= k < |products| ensures StrLe(products[k].code, r) {
          if k > 0 {
            assert products[k] == tail[k - 1];
            StrLeTransitive(products[k].code, m, c);
          }
        }
      } else {
        assert r == m;
        StrLeTotal(m, c);
        assert products[j + 1] == tail[j];
        forall k | 0 <= k < |products| ensures StrLe(products[k].code, r) {
          if k > 0 {
            assert products[k] == tail[k - 1];
          }
        }
      }
    }
  }

  /**
   * Only one code can be the greatest, so the result does not depend on how
   * the sort breaks ties or on the order of the products.
   */
  lemma LastProductCodeUnique(products: seq<Product>, code: string)
    requires IsGreatestCode(products, code)
    ensures LastProductCode(products) == Some(code)
  {
    LastProductCodeIsGreatest(products);
    var r := LastProductCode(products).value;
    var i :| 0 <= i < |products| && products[i].code == code;
    var j :| 0 <= j < |products| && products[j].code == r;
    StrLeAntisymmetric(code, r);
  }

  lemma LastProductCodeIgnoresOrder(a: seq<Product>, b: seq<Product>)
    requires multiset(a) == multiset(b)
    ensures LastProductCode(a) == LastProductCode(b)
  {
    if |a| > 0 {
      assert |b| == |multiset(b)| == |multiset(a)| == |a|;
      LastProductCodeIsGreatest(a);
      var r := LastProductCode(a).value;
      var i :| 0 <= i < |a| && a[i].code == r;
      assert a[i] in multiset(b);
      var i' :| 0 <= i' < |b| && b[i'] == a[i];
      forall k | 0 <= k < |b| ensures StrLe(b[k].code, r) {
        assert b[k] in multiset(a);
        var k' :| 0 <= k' < |a| && a[k'] == b[k];
      }
      LastProductCodeUnique(b, r);
    } else {
      assert |b| == |multiset(b)| == 0;
    }
  }

  /** Adding a product changes the last code only when the new code sorts after it. */
  lemma LastProductCodeAfterAdd(products: seq<Product>, p: Product)
    ensures var prev := LastProductCode(products);
      LastProductCode(products + [p]) ==
        if prev.None? || StrLe(prev.value, p.code) then Some(p.code) else prev
  {
    var all := products + [p];
    var prev := LastProductCode(products);
    assert all[|products|] == p;
    if prev.None? {
      assert all == [p];
      StrLeReflexive(p.code);
      LastProductCodeUnique(all, p.code);
    } else {
      LastProductCodeIsGreatest(products);
      var m := prev.value;
      var i :| 0 <= i < |products| && products[i].code == m;
      assert all[i] == products[i];
      StrLeTotal(m, p.code);
      StrLeReflexive(p.code);
      StrLeReflexive(m);
      if StrLe(m, p.code) {
        forall k | 0 <= k < |all| ensures StrLe(all[k].code, p.code) {
          if k < |products| {
            assert all[k] == products[k];
            StrLeTransitive(all[k].code, m, p.code);
          }
        }
        LastProductCodeUnique(all, p.code);
      } else {
        forall k | 0 <= k < |all| ensures StrLe(all[k].code, m) {
          if k < |products| { assert all[k] == products[k]; }
        }
        LastProductCodeUnique(all, m);
      }
    }
  }

  /** The hook's state: the dialog flag, over the application store it shares. */
  class ProductModalState {
    var isOpen: bool
    const store: Store.AppStore

    constructor(store: Store.AppStore)
      ensures this.store == store && !isOpen
    {
      this.store := store;
      isOpen := false;
    }

    /** The code the product form continues from: the greatest code in the store, if any. */
    function LastCode(): (r: Option<string>)
      reads store
      ensures r.None? <==> |store.products| == 0
      ensures r.Some? ==> IsGreatestCode(store.products, r.value)
    {
      var r := LastProductCode(store.products);
      if r.Some? then LastProductCodeIsGreatest(store.products); r else r
    }

    method OpenModal()
      modifies this
      ensures isOpen
    {
      isOpen := true;
    }

    method CloseModal()
      modifies this
      ensures !isOpen
    {
      isOpen := false;
    }

    /** Adds the product to the store, then closes the dialog. */
    method HandleAddProduct(product: Product)
      modifies this, store
      ensures store.State() == Store.Apply(old(store.State()), Store.Action.AddProduct(product))
      ensures !isOpen
    {
      store.AddProduct(product);
      isOpen := false;
    }
  }
}
