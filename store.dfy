/**
 * The application store (src/store/useStore.ts): the dark-mode flag, the
 * business profile, the customer, product and invoice lists, the ERP
 * credentials and the API token. Each action overwrites one field. The
 * meaning of every action is the pure function `Apply` on a snapshot of the
 * state; the store's methods are proved to perform exactly that update.
 */
module Store {
  import opened JsValue
  import opened Types

  /** A snapshot of the store's fields. */
  datatype StoreState = StoreState(
    darkMode: bool,
    business: Option<Business>,
    customers: seq<Customer>,
    products: seq<Product>,
    invoices: seq<Invoice>,
    erpSystem: Option<ErpSystem>,
    tokenState: TokenState)

  /** The store's actions, one per setter the store offers. */
  datatype Action =
    | ToggleDarkMode
    | SetBusiness(business: Business)
    | AddCustomer(customer: Customer)
    | UpdateCustomer(customer: Customer)
    | DeleteCustomer(customerId: string)
    | AddProduct(product: Product)
    | UpdateProduct(product: Product)
    | DeleteProduct(productId: string)
    | AddInvoice(invoice: Invoice)
    | UpdateInvoice(invoice: Invoice)
    | SetErpSystem(erpSystem: ErpSystem)
    | SetTokenState(tokenState: TokenState)

  /** The state a fresh store starts in: light mode, nothing recorded, no token. */
  function Initial(): StoreState
  {
    StoreState(false, None, [], [], [], None, TokenState(None, None))
  }

  function CustomerId(c: Customer): string { c.id }
  function ProductId(p: Product): string { p.id }
  function InvoiceId(i: Invoice): string { i.id }

  /**
   * `xs.map(y => id(y) === id(x) ? x : y)`: every element with the id of `x`
   * replaced by `x`, the others kept, in the same order.
   */
  function ReplaceById<T>(xs: seq<T>, x: T, id: T -> string): (r: seq<T>)
    ensures |r| == |xs|
    ensures forall k :: 0 <= k < |xs| ==> r[k] == if id(xs[k]) == id(x) then x else xs[k]
    decreases |xs|
  {
    if |xs| == 0 then []
    else [if id(xs[0]) == id(x) then x else xs[0]] + ReplaceById(xs[1..], x, id)
  }

  /**
   * `xs.filter(y => id(y) !== key)`: the elements whose id differs from
   * `key`, in order: nothing with that id is left and everything else is kept.
   */
  function RemoveById<T>(xs: seq<T>, key: string, id: T -> string): (r: seq<T>)
    ensures |r| <= |xs|
    ensures forall k :: 0 <= k < |r| ==> r[k] in xs && id(r[k]) != key
    ensures forall k :: 0 <= k < |xs| && id(xs[k]) != key ==> xs[k] in r
    decreases |xs|
  {
    if |xs| == 0 then []
    else
      var init := xs[..|xs| - 1];
      var rest := RemoveById(init, key, id);
      assert forall k :: 0 <= k < |init| ==> xs[k] == init[k];
      if id(xs[|xs| - 1]) == key then rest
      else rest + [xs[|xs| - 1]]
  }

  /** The meaning of each action: the new state in terms of the old one. */
  function Apply(s: StoreState, a: Action): StoreState
  {
    match a
    case ToggleDarkMode => s.(darkMode := !s.darkMode)
    case SetBusiness(b) => s.(business := Some(b))
    case AddCustomer(c) => s.(customers := s.customers + [c])
    case UpdateCustomer(c) => s.(customers := ReplaceById(s.customers, c, CustomerId))
    case DeleteCustomer(id) => s.(customers := RemoveById(s.customers, id, CustomerId))
    case AddProduct(p) => s.(products := s.products + [p])
    case UpdateProduct(p) => s.(products := ReplaceById(s.products, p, ProductId))
    case DeleteProduct(id) => s.(products := RemoveById(s.products, id, ProductId))
    case AddInvoice(i) => s.(invoices := s.invoices + [i])
    case UpdateInvoice(i) => s.(invoices := ReplaceById(s.invoices, i, InvoiceId))
    case SetErpSystem(e) => s.(erpSystem := Some(e))
    case SetTokenState(t) => s.(tokenState := t)
  }

  /** The fields of the store. */
  datatype Field = DarkModeField | BusinessField | CustomersField | ProductsField | InvoicesField | ErpSystemField | TokenStateField

  /** The one field an action writes. */
  function Writes(a: Action): Field
  {
    match a
    case ToggleDarkMode => DarkModeField
    case SetBusiness(_) => BusinessField
    case AddCustomer(_) => CustomersField
    case UpdateCustomer(_) => CustomersField
    case DeleteCustomer(_) => CustomersField
    case AddProduct(_) => ProductsField
    case UpdateProduct(_) => ProductsField
    case DeleteProduct(_) => ProductsField
    case AddInvoice(_) => InvoicesField
    case UpdateInvoice(_) => InvoicesField
    case SetErpSystem(_) => ErpSystemField
    case SetTokenState(_) => TokenStateField
  }

  /** Two states agree on every field except possibly `f`. */
  predicate AgreeExcept(s: StoreState, t: StoreState, f: Field)
  {
    (f != DarkModeField ==> s.darkMode == t.darkMode) &&
    (f != BusinessField ==> s.business == t.business) &&
    (f != CustomersField ==> s.customers == t.customers) &&
    (f != ProductsField ==> s.products == t.products) &&
    (f != InvoicesField ==> s.invoices == t.invoices) &&
    (f != ErpSystemField ==> s.erpSystem == t.erpSystem) &&
    (f != TokenStateField ==> s.tokenState == t.tokenState)
  }

  /** Each action changes only its own field. */
  lemma ActionWritesOneField(s: StoreState, a: Action)
    ensures AgreeExcept(s, Apply(s, a), Writes(a))
  {
  }

  /** Toggling dark mode negates the flag, so toggling twice restores the state. */
  lemma ToggleTwice(s: StoreState)
    ensures Apply(s, ToggleDarkMode).darkMode == !s.darkMode
    ensures Apply(Apply(s, ToggleDarkMode), ToggleDarkMode) == s
  {
  }

  /** Adding appends at the end: one more element, the earlier ones unchanged. */
  lemma AddAppends(s: StoreState, c: Customer, p: Product, i: Invoice)
    ensures var t := Apply(s, AddCustomer(c));
      |t.customers| == |s.customers| + 1 && t.customers[..|s.customers|] == s.customers && t.customers[|s.customers|] == c
    ensures var t := Apply(s, AddProduct(p));
      |t.products| == |s.products| + 1 && t.products[..|s.products|] == s.products && t.products[|s.products|] == p
    ensures var t := Apply(s, AddInvoice(i));
      |t.invoices| == |s.invoices| + 1 && t.invoices[..|s.invoices|] == s.invoices && t.invoices[|s.invoices|] == i
  {
  }

  /** Replacing by an id no element has changes nothing. */
  lemma ReplaceUnknownId<T>(xs: seq<T>, x: T, id: T -> string)
    requires forall k :: 0 <= k < |xs| ==> id(xs[k]) != id(x)
    ensures ReplaceById(xs, x, id) == xs
  {
  }

  /** Replacing twice with the same element is replacing once. */
  lemma ReplaceIdempotent<T>(xs: seq<T>, x: T, id: T -> string)
    ensures ReplaceById(ReplaceById(xs, x, id), x, id) == ReplaceById(xs, x, id)
  {
  }

  /** Removing distributes over concatenation: order is kept segment by segment. */
  lemma {:induction false} RemoveConcat<T>(xs: seq<T>, ys: seq<T>, key: string, id: T -> string)
    ensures RemoveById(xs + ys, key, id) == RemoveById(xs, key, id) + RemoveById(ys, key, id)
    decreases |ys|
  {
    if |ys| > 0 {
      var n := |ys| - 1;
      LastOfConcat(xs, ys);
      RemoveConcat(xs, ys[..n], key, id);
      var a, b := RemoveById(xs, key, id), RemoveById(ys[..n], key, id);
      assert (a + b) + [ys[n]] == a + (b + [ys[n]]);
    } else {
      assert xs + ys == xs;
    }
  }

  /** The concatenation with a non-empty `ys` ends in the last element of `ys`. */
  lemma LastOfConcat<T>(xs: seq<T>, ys: seq<T>)
    requires |ys| > 0
    ensures (xs + ys)[..|xs + ys| - 1] == xs + ys[..|ys| - 1]
    ensures (xs + ys)[|xs + ys| - 1] == ys[|ys| - 1]
  {
  }

  /** Appending `x` and then removing its id gives back a list that lacked that id. */
  lemma RemoveAppended<T>(xs: seq<T>, x: T, id: T -> string)
    requires forall k :: 0 <= k < |xs| ==> id(xs[k]) != id(x)
    ensures RemoveById(xs + [x], id(x), id) == xs
  {
    LastOfAppend(xs, x);
    RemoveUnknownId(xs, id(x), id);
  }

  lemma LastOfAppend<T>(xs: seq<T>, x: T)
    ensures (xs + [x])[..|xs|] == xs && (xs + [x])[|xs|] == x
  {
  }

  /** Removing an id no element has changes nothing. */
  lemma {:induction false} RemoveUnknownId<T>(xs: seq<T>, key: string, id: T -> string)
    requires forall k :: 0 <= k < |xs| ==> id(xs[k]) != key
    ensures RemoveById(xs, key, id) == xs
    decreases |xs|
  {
    if |xs| > 0 {
      RemoveUnknownId(xs[..|xs| - 1], key, id);
    }
  }

  /** Removing an id twice is removing it once. */
  lemma RemoveIdempotent<T>(xs: seq<T>, key: string, id: T -> string)
    ensures RemoveById(RemoveById(xs, key, id), key, id) == RemoveById(xs, key, id)
  {
    var r := RemoveById(xs, key, id);
    assert forall k :: 0 <= k < |r| ==> id(r[k]) != key by {
      forall k | 0 <= k < |r| ensures id(r[k]) != key {
        assert r[k] in r;
      }
    }
    RemoveUnknownId(r, key, id);
  }

  /** Deleting a customer right after adding one with a fresh id restores the list. */
  lemma DeleteUndoesAdd(s: StoreState, c: Customer)
    requires forall k :: 0 <= k < |s.customers| ==> s.customers[k].id != c.id
    ensures Apply(Apply(s, AddCustomer(c)), DeleteCustomer(c.id)) == s
  {
    RemoveAppended(s.customers, c, CustomerId);
  }

  /** Updating a customer that is not in the list changes nothing. */
  lemma UpdateUnknownCustomer(s: StoreState, c: Customer)
    requires forall k :: 0 <= k < |s.customers| ==> s.customers[k].id != c.id
    ensures Apply(s, UpdateCustomer(c)) == s
  {
    ReplaceUnknownId(s.customers, c, CustomerId);
  }

  /** Updating a product that is not in the list changes nothing. */
  lemma UpdateUnknownProduct(s: StoreState, p: Product)
    requires forall k :: 0 <= k < |s.products| ==> s.products[k].id != p.id
    ensures Apply(s, UpdateProduct(p)) == s
  {
    ReplaceUnknownId(s.products, p, ProductId);
  }

  /** Updating an invoice that is not in the list changes nothing. */
  lemma UpdateUnknownInvoice(s: StoreState, i: Invoice)
    requires forall k :: 0 <= k < |s.invoices| ==> s.invoices[k].id != i.id
    ensures Apply(s, UpdateInvoice(i)) == s
  {
    ReplaceUnknownId(s.invoices, i, InvoiceId);
  }

  /** The store itself: its fields are overwritten by the actions. */
  class AppStore {
    var darkMode: bool
    var business: Option<Business>
    var customers: seq<Customer>
    var products: seq<Product>
    var invoices: seq<Invoice>
    var erpSystem: Option<ErpSystem>
    var tokenState: TokenState

    function State(): StoreState
      reads this
    {
      StoreState(darkMode, business, customers, products, invoices, erpSystem, tokenState)
    }

    constructor()
      ensures State() == Initial()
    {
      darkMode := false;
      business := None;
      customers := [];
      products := [];
      invoices := [];
      erpSystem := None;
      tokenState := TokenState(None, None);
    }

    method ToggleDarkMode()
      modifies this
      ensures State() == Apply(old(State()), Action.ToggleDarkMode)
    {
      darkMode := !darkMode;
    }

    method SetBusiness(b: Business)
      modifies this
      ensures State() == Apply(old(State()), Action.SetBusiness(b))
    {
      business := Some(b);
    }

    method AddCustomer(c: Customer)
      modifies this
      ensures State() == Apply(old(State()), Action.AddCustomer(c))
    {
      customers := customers + [c];
    }

    method UpdateCustomer(c: Customer)
      modifies this
      ensures State() == Apply(old(State()), Action.UpdateCustomer(c))
    {
      customers := ReplaceById(customers, c, CustomerId);
    }

    method DeleteCustomer(customerId: string)
      modifies this
      ensures State() == Apply(old(State()), Action.DeleteCustomer(customerId))
    {
      customers := RemoveById(customers, customerId, CustomerId);
    }

    method AddProduct(p: Product)
      modifies this
      ensures State() == Apply(old(State()), Action.AddProduct(p))
    {
      products := products + [p];
    }

    method UpdateProduct(p: Product)
      modifies this
      ensures State() == Apply(old(State()), Action.UpdateProduct(p))
    {
      products := ReplaceById(products, p, ProductId);
    }

    method DeleteProduct(productId: string)
      modifies this
      ensures State() == Apply(old(State()), Action.DeleteProduct(productId))
    {
      products := RemoveById(products, productId, ProductId);
    }

    method AddInvoice(i: Invoice)
      modifies this
      ensures State() == Apply(old(State()), Action.AddInvoice(i))
    {
      invoices := invoices + [i];
    }

    method UpdateInvoice(i: Invoice)
      modifies this
      ensures State() == Apply(old(State()), Action.UpdateInvoice(i))
    {
      invoices := ReplaceById(invoices, i, InvoiceId);
    }

    method SetErpSystem(e: ErpSystem)
      modifies this
      ensures State() == Apply(old(State()), Action.SetErpSystem(e))
    {
      erpSystem := Some(e);
    }

    method SetTokenState(t: TokenState)
      modifies this
      ensures State() == Apply(old(State()), Action.SetTokenState(t))
    {
      tokenState := t;
    }
  }
}
