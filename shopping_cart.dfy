/**
 * `modules/shopping_cart.py`: one user's cart over the shared catalog. Adding
 * merges into a line of exactly the same name, removing acts on the first such
 * line, and checkout validates every line, then decrements stock line by line
 * through `update_stock`, then records a sale.
 */
module Shopping {
  import opened Wrappers
  import opened Domain
  import Text
  import opened Database
  import opened ProductManagement

  /** The outcomes of `add_to_cart`. */
  datatype AddResult =
    | Added
      /** "Produto não encontrado" */
    | ProductNotFound
      /** "Quantidade indisponível. Estoque: ..." */
    | QuantityUnavailable(stock: int)

  /** The outcomes of `remove_from_cart`. */
  datatype RemoveResult =
    | LineRemoved
    | QuantityReduced
      /** "Produto não encontrado no carrinho" */
    | NotInCart

  /** The outcomes of `checkout`. */
  datatype CheckoutResult =
    | Completed(total: int)
      /** "Carrinho vazio" */
    | EmptyCart
      /** `find_product` gave None for this line: the source then raises on `None['quantidade']`. */
    | ProductVanished(produto: string)
      /** "Estoque insuficiente para ..." */
    | InsufficientStock(produto: string)
      /** "Erro ao atualizar estoque de ...": `update_stock` refused this line. */
    | StockUpdateFailed(produto: string)

  // ------------------------------------------------------ cart specification

  /** Index of the first line whose `produto` is exactly `name`. */
  function FirstLine(lines: seq<CartLine>, name: string): (r: Option<nat>)
    ensures r.Some? ==> r.value < |lines| && lines[r.value].produto == name
    ensures r.Some? ==> forall j :: 0 <= j < r.value ==> lines[j].produto != name
    ensures r.None? <==> forall j :: 0 <= j < |lines| ==> lines[j].produto != name
    decreases |lines|
  {
    if |lines| == 0 then None
    else if lines[0].produto == name then Some(0)
    else match FirstLine(lines[1..], name)
      case None => None
      case Some(k) => Some(k + 1)
  }

  /** The cart after a successful `add_to_cart(name, quantity)` at unit price `preco`. */
  function Merged(cart: seq<CartLine>, name: string, quantity: int, preco: int): seq<CartLine> {
    match FirstLine(cart, name)
    case Some(i) => cart[i := cart[i].(quantidade := cart[i].quantidade + quantity)]
    case None => cart + [CartLine(name, quantity, preco, preco * quantity)]
  }

  /**
   * Adding to a name already in the cart grows that line only and leaves its
   * subtotal as it was; otherwise exactly one line is appended at the end, with
   * the price snapshotted and subtotal `preco * quantity`.
   */
  lemma MergedEffect(cart: seq<CartLine>, name: string, quantity: int, preco: int)
    ensures var c := Merged(cart, name, quantity, preco);
      match FirstLine(cart, name)
      case Some(i) =>
        && |c| == |cart|
        && c[i].quantidade == cart[i].quantidade + quantity
        && c[i].subtotal == cart[i].subtotal
        && c[i].precoUnitario == cart[i].precoUnitario && c[i].produto == name
        && (forall j :: 0 <= j < |cart| && j != i ==> c[j] == cart[j])
      case None =>
        && c[..|cart|] == cart
        && c[|cart|..] == [CartLine(name, quantity, preco, preco * quantity)]
  {
  }

  /**
   * Because a merge keeps the old subtotal, `get_cart_total` can fall short of the
   * cart's worth: one unit of "arroz" at 599 cents merged with two more still totals 599.
   */
  lemma MergeKeepsStaleSubtotal()
    ensures var c := Merged(Merged([], "arroz", 1, 599), "arroz", 2, 599);
      c == [CartLine("arroz", 3, 599, 599)] && SubtotalSum(c) == 599 && LineValue(c) == 1797
  {
    var c1 := Merged([], "arroz", 1, 599);
    assert c1 == [CartLine("arroz", 1, 599, 599)];
    assert FirstLine(c1, "arroz") == Some(0);
    var c := Merged(c1, "arroz", 2, 599);
    assert c == [CartLine("arroz", 3, 599, 599)];
    assert c[..0] == [];
  }

  /** The cart after `remove_from_cart(name, quantity)`, or None when no line is named `name`. */
  function Removed(cart: seq<CartLine>, name: string, quantity: Option<int>): (r: Option<seq<CartLine>>)
    ensures r.Some? <==> FirstLine(cart, name).Some?
  {
    match FirstLine(cart, name)
    case None => None
    case Some(i) =>
      if quantity.None? || quantity.value >= cart[i].quantidade then Some(cart[..i] + cart[i + 1..])
      else
        var q := cart[i].quantidade - quantity.value;
        Some(cart[i := cart[i].(quantidade := q, subtotal := cart[i].precoUnitario * q)])
  }

  /**
   * Removing keeps every subtotal exact if it was, and takes out of the total the
   * whole line, or the unit price times the quantity removed.
   */
  lemma RemovedTotal(cart: seq<CartLine>, name: string, quantity: Option<int>)
    requires FirstLine(cart, name).Some?
    requires SubtotalsExact(cart)
    ensures var c := Removed(cart, name, quantity).value; var l := cart[FirstLine(cart, name).value];
      && SubtotalsExact(c)
      && SubtotalSum(c) == SubtotalSum(cart) -
           (if quantity.None? || quantity.value >= l.quantidade then l.subtotal else l.precoUnitario * quantity.value)
  {
    var i := FirstLine(cart, name).value;
    if quantity.None? || quantity.value >= cart[i].quantidade {
      RemovedLine(cart, i);
    } else {
      ReducedLine(cart, i, quantity.value);
    }
  }

  lemma RemovedLine(cart: seq<CartLine>, i: nat)
    requires i < |cart| && SubtotalsExact(cart)
    ensures var c := cart[..i] + cart[i + 1..];
      SubtotalsExact(c) && SubtotalSum(c) == SubtotalSum(cart) - cart[i].subtotal
  {
    var c := cart[..i] + cart[i + 1..];
    SubtotalSumRemove(cart, i);
    forall k | 0 <= k < |c|
      ensures c[k].subtotal == c[k].precoUnitario * c[k].quantidade
    {
      assert c[k] == if k < i then cart[k] else cart[k + 1];
    }
  }

  lemma ReducedLine(cart: seq<CartLine>, i: nat, n: int)
    requires i < |cart| && SubtotalsExact(cart)
    ensures var l := cart[i]; var q := l.quantidade - n;
      var c := cart[i := l.(quantidade := q, subtotal := l.precoUnitario * q)];
      SubtotalsExact(c) && SubtotalSum(c) == SubtotalSum(cart) - l.precoUnitario * n
  {
    var l := cart[i];
    var q := l.quantidade - n;
    var l' := l.(quantidade := q, subtotal := l.precoUnitario * q);
    SubtotalSumUpdate(cart, i, l');
    MulSub(l.precoUnitario, l.quantidade, n);
  }

  lemma MulSub(x: int, a: int, b: int)
    ensures x * (a - b) == x * a - x * b
  {
  }

  // -------------------------------------------------- checkout specification

  /** The validation of checkout's first loop for one line: its product exists with enough stock. */
  predicate Covered(ps: seq<Product>, l: CartLine) {
    Find(ps, l.produto).Some? && Find(ps, l.produto).value.quantidade >= l.quantidade
  }

  /** Index of the first line that fails validation. */
  function FirstUncovered(ps: seq<Product>, lines: seq<CartLine>): (r: Option<nat>)
    ensures r.Some? ==> r.value < |lines| && !Covered(ps, lines[r.value])
    ensures r.Some? ==> forall j :: 0 <= j < r.value ==> Covered(ps, lines[j])
    ensures r.None? <==> forall j :: 0 <= j < |lines| ==> Covered(ps, lines[j])
    decreases |lines|
  {
    if |lines| == 0 then None
    else if !Covered(ps, lines[0]) then Some(0)
    else match FirstUncovered(ps, lines[1..])
      case None => None
      case Some(k) => Some(k + 1)
  }

  /** The catalog after checkout's second loop, and the name of the line `update_stock` refused, if any. */
  datatype Debit = Debit(produtos: seq<Product>, refused: Option<string>)

  /** One turn of the debit loop: nothing after a refusal, otherwise `update_stock(line.produto, -line.quantidade)`. */
  function DebitStep(prev: Debit, l: CartLine): (d: Debit)
    ensures |d.produtos| == |prev.produtos|
  {
    if prev.refused.Some? then prev
    else match StockUpdate(prev.produtos, l.produto, -l.quantidade)
      case None => Debit(prev.produtos, Some(l.produto))
      case Some(qs) => Debit(qs, None)
  }

  /** The debit loop after its first `n` turns. */
  function DebitPrefix(ps: seq<Product>, lines: seq<CartLine>, n: nat): (d: Debit)
    requires n <= |lines|
    ensures |d.produtos| == |ps|
    decreases n
  {
    if n == 0 then Debit(ps, None)
    else DebitStep(DebitPrefix(ps, lines, n - 1), lines[n - 1])
  }

  /** `update_stock(line.produto, -line.quantidade)` for each line in order, stopping at the first refusal. */
  function DebitAll(ps: seq<Product>, lines: seq<CartLine>): (d: Debit)
    ensures |d.produtos| == |ps|
  {
    DebitPrefix(ps, lines, |lines|)
  }

  /** Debiting in order never leaves a negative stock, whatever happens to the lines. */
  lemma {:induction false} DebitPrefixKeepsStocked(ps: seq<Product>, lines: seq<CartLine>, n: nat)
    requires n <= |lines| && AllStocked(ps)
    ensures AllStocked(DebitPrefix(ps, lines, n).produtos)
    decreases n
  {
    if n > 0 {
      var prev := DebitPrefix(ps, lines, n - 1);
      var l := lines[n - 1];
      DebitPrefixKeepsStocked(ps, lines, n - 1);
      if prev.refused.None? && StockUpdate(prev.produtos, l.produto, -l.quantidade).Some? {
        assert DebitPrefix(ps, lines, n).produtos == StockUpdate(prev.produtos, l.produto, -l.quantidade).value;
        StockUpdateEffect(prev.produtos, l.produto, -l.quantidade);
      } else {
        assert DebitPrefix(ps, lines, n).produtos == prev.produtos;
      }
    }
  }

  /** The whole cart debited keeps every stock non-negative. */
  lemma DebitAllKeepsStocked(ps: seq<Product>, lines: seq<CartLine>)
    requires AllStocked(ps)
    ensures AllStocked(DebitAll(ps, lines).produtos)
  {
    DebitPrefixKeepsStocked(ps, lines, |lines|);
  }

  /** What `checkout` answers for a cart against a catalog. */
  function CheckoutOutcome(ps: seq<Product>, cart: seq<CartLine>): CheckoutResult {
    if cart == [] then EmptyCart
    else match FirstUncovered(ps, cart)
      case Some(k) =>
        if Find(ps, cart[k].produto).None? then ProductVanished(cart[k].produto)
        else InsufficientStock(cart[k].produto)
      case None =>
        var d := DebitAll(ps, cart);
        if d.refused.Some? then StockUpdateFailed(d.refused.value) else Completed(SubtotalSum(cart))
  }

  /** A failing validation rejects the cart before any stock is touched. */
  lemma CheckoutRejectsBeforeDebit(ps: seq<Product>, cart: seq<CartLine>)
    requires cart != []
    ensures CheckoutOutcome(ps, cart).InsufficientStock? || CheckoutOutcome(ps, cart).ProductVanished?
      <==> exists k :: 0 <= k < |cart| && !Covered(ps, cart[k])
  {
  }

  /**
   * Checkout is not all-or-nothing as written: "arroz" and "ARROZ" are separate
   * lines (the merge compares names exactly) that both find the one product (the
   * lookup ignores case); each passes validation alone, the first debit leaves 1
   * in stock and the second is refused, so the stock stays decremented while the
   * cart and the sale ledger are left as they were.
   */
  lemma CheckoutCanDecrementPartially()
    ensures var ps := [Product(1, "arroz", 599, 3)];
      var cart := Merged(Merged([], "arroz", 2, 599), "ARROZ", 2, 599);
      && cart == [CartLine("arroz", 2, 599, 1198), CartLine("ARROZ", 2, 599, 1198)]
      && Find(ps, "arroz") == Some(ps[0]) && Find(ps, "ARROZ") == Some(ps[0])
      && CheckoutOutcome(ps, cart) == StockUpdateFailed("ARROZ")
      && DebitAll(ps, cart).produtos == [Product(1, "arroz", 599, 1)]
  {
    var ps := [Product(1, "arroz", 599, 3)];
    assert Text.Lower("ARROZ") == "arroz";
    assert Text.Lower("arroz") == "arroz";
    assert Names(ps) == ["arroz"];
    assert FindIndex(ps, "ARROZ") == Some(0);
    assert FindIndex(ps, "arroz") == Some(0);
    var c1 := Merged([], "arroz", 2, 599);
    assert c1 == [CartLine("arroz", 2, 599, 1198)];
    assert FirstLine(c1, "ARROZ") == None;
    var cart := Merged(c1, "ARROZ", 2, 599);
    assert cart == [CartLine("arroz", 2, 599, 1198), CartLine("ARROZ", 2, 599, 1198)];
    assert FirstUncovered(ps, cart[1..]) == None;
    assert FirstUncovered(ps, cart) == None;
    assert cart[..1] == c1 && c1[..0] == [];
    var d1 := DebitPrefix(ps, cart, 1);
    assert d1 == Debit([Product(1, "arroz", 599, 1)], None);
    assert StockUpdate(d1.produtos, "ARROZ", -2) == None;
  }

  // ------------------------------------------------------------------- class

  class ShoppingCart {
    const username: string
    const db: DatabaseManager
    const productManager: ProductManager
    var cart: seq<CartLine>

    /** The cart's catalog and its own store are the same file. */
    predicate Valid() {
      productManager.db == db
    }

    /** `ShoppingCart(username)`: both managers initialize the store; the cart starts empty. */
    constructor (username: string, db: DatabaseManager)
      modifies db
      ensures Valid() && this.username == username && this.db == db
      ensures cart == [] && db.file == Initialized(old(db.file))
    {
      this.username := username;
      this.db := db;
      db.InitializeDatabase();
      productManager := new ProductManager(db);
      cart := [];
      new;
      InitializedIdempotent(old(db.file));
    }

    /** Catalog as the store holds it now. */
    function Catalog(): seq<Product>
      reads db
    {
      db.LoadData().produtos
    }

    /**
     * `add_to_cart`: refused, with the cart unchanged, when no product answers to the
     * name up to case or the requested quantity alone exceeds its stock; otherwise
     * merged into the line of exactly that name or appended as a new line.
     */
    method AddToCart(productName: string, quantity: int) returns (r: AddResult)
      requires Valid()
      modifies this
      ensures var p := Find(Catalog(), productName);
        r == (if p.None? then ProductNotFound
              else if p.value.quantidade < quantity then QuantityUnavailable(p.value.quantidade)
              else Added)
      ensures r != Added ==> cart == old(cart)
      ensures r == Added ==> cart == Merged(old(cart), productName, quantity, Find(Catalog(), productName).value.preco)
    {
      var product := productManager.FindProduct(productName);
      if product.None? {
        return ProductNotFound;
      }
      if product.value.quantidade < quantity {
        return QuantityUnavailable(product.value.quantidade);
      }
      var i := 0;
      while i < |cart|
        invariant 0 <= i <= |cart| && cart == old(cart)
        invariant forall j :: 0 <= j < i ==> cart[j].produto != productName
      {
        if cart[i].produto == productName {
          cart := cart[i := cart[i].(quantidade := cart[i].quantidade + quantity)];
          return Added;
        }
        i := i + 1;
      }
      cart := cart + [CartLine(productName, quantity, product.value.preco, product.value.preco * quantity)];
      return Added;
    }

    /**
     * `remove_from_cart`: acts on the first line of exactly that name, removing it
     * when `quantity` is None or covers it and otherwise decrementing it and
     * recomputing its subtotal; with no such line nothing changes.
     */
    method RemoveFromCart(productName: string, quantity: Option<int> := None) returns (r: RemoveResult)
      modifies this
      ensures r == NotInCart <==> FirstLine(old(cart), productName).None?
      ensures r == NotInCart ==> cart == old(cart)
      ensures r != NotInCart ==> cart == Removed(old(cart), productName, quantity).value
      ensures r == LineRemoved ==> |cart| == |old(cart)| - 1
      ensures r == QuantityReduced ==> |cart| == |old(cart)|
    {
      var i := 0;
      while i < |cart|
        invariant 0 <= i <= |cart| && cart == old(cart)
        invariant forall j :: 0 <= j < i ==> cart[j].produto != productName
      {
        var item := cart[i];
        if item.produto == productName {
          if quantity.None? || quantity.value >= item.quantidade {
            cart := cart[..i] + cart[i + 1..];
            return LineRemoved;
          } else {
            var q := item.quantidade - quantity.value;
            cart := cart[i := item.(quantidade := q, subtotal := item.precoUnitario * q)];
            return QuantityReduced;
          }
        }
        i := i + 1;
      }
      return NotInCart;
    }

    /** `get_cart_total`: the sum of the lines' subtotals, which is the cart's worth while every subtotal is exact. */
    function GetCartTotal(): (t: int)
      reads this
      ensures t == SubtotalSum(cart)
      ensures SubtotalsExact(cart) ==> t == LineValue(cart)
    {
      if SubtotalsExact(cart) then SubtotalSumExact(cart); SubtotalSum(cart) else SubtotalSum(cart)
    }

    /** `list_cart_items`. */
    function ListCartItems(): (r: seq<CartLine>)
      reads this
      ensures r == cart
    {
      cart
    }

    method ClearCart()
      modifies this
      ensures cart == []
    {
      cart := [];
    }

    /** The sale that a successful checkout appends to `vendas`. */
    function SaleFor(vendas: seq<Sale>, lines: seq<CartLine>): Sale {
      Sale(|vendas| + 1, Some(username), lines, SubtotalSum(lines))
    }

    /** Validation loop shared by both checkouts: the first line that fails, in cart order. */
    method Validate() returns (bad: Option<nat>)
      requires Valid()
      ensures bad == FirstUncovered(Catalog(), cart)
    {
      ghost var ps := Catalog();
      var i := 0;
      while i < |cart|
        invariant 0 <= i <= |cart|
        invariant forall k :: 0 <= k < i ==> Covered(ps, cart[k])
      {
        var product := productManager.FindProduct(cart[i].produto);
        if product.None? || product.value.quantidade < cart[i].quantidade {
          FirstUncoveredAt(ps, cart, i);
          return Some(i);
        }
        i := i + 1;
      }
      return None;
    }

    /**
     * Checkout's second loop: `update_stock(produto, -quantidade)` line by line,
     * stopping at the first refusal with the earlier debits already saved.
     */
    method DebitCart() returns (refused: Option<string>)
      requires Valid() && db.file == Present(db.LoadData())
      modifies db
      ensures var d := old(db.LoadData()); var debit := DebitAll(d.produtos, cart);
        refused == debit.refused && db.file == Present(d.(produtos := debit.produtos))
    {
      ghost var d := db.LoadData();
      ghost var current := d.produtos;
      var lines := cart;
      var i := 0;
      while i < |lines|
        invariant 0 <= i <= |lines|
        invariant DebitPrefix(d.produtos, lines, i) == Debit(current, None)
        invariant db.file == Present(d.(produtos := current))
      {
        var ok := productManager.UpdateStock(lines[i].produto, -lines[i].quantidade);
        if !ok {
          DebitAllStops(d.produtos, lines, i);
          return Some(lines[i].produto);
        }
        current := StockUpdate(current, lines[i].produto, -lines[i].quantidade).value;
        i := i + 1;
      }
      return None;
    }

    /**
     * `checkout` as written: an empty cart or a failing validation changes
     * nothing; otherwise the stock is debited line by line, and a refused debit
     * stops there with the earlier debits saved; on success one sale with the next
     * id and the cart's total is appended and the cart is emptied.
     */
    method Checkout() returns (r: CheckoutResult)
      requires Valid()
      modifies this, db
      ensures r == CheckoutOutcome(old(Catalog()), old(cart))
      ensures !r.Completed? ==> cart == old(cart)
      ensures r.EmptyCart? || r.ProductVanished? || r.InsufficientStock? ==> db.file == old(db.file)
      ensures r.StockUpdateFailed? ==> var d := old(db.LoadData());
        db.file == Present(d.(produtos := DebitAll(d.produtos, old(cart)).produtos))
      ensures r.Completed? ==> var d := old(db.LoadData()); var vs := d.vendas;
        && cart == []
        && db.file == Present(Data(DebitAll(d.produtos, old(cart)).produtos, d.usuarios, vs + [SaleFor(vs, old(cart))]))
    {
      if |cart| == 0 {
        return EmptyCart;
      }
      var bad := Validate();
      if bad.Some? {
        var k := bad.value;
        var product := productManager.FindProduct(cart[k].produto);
        if product.None? {
          return ProductVanished(cart[k].produto);
        }
        return InsufficientStock(cart[k].produto);
      }
      CatalogPresent(db.file, cart[0].produto);
      var refused := DebitCart();
      if refused.Some? {
        return StockUpdateFailed(refused.value);
      }
      var data := db.LoadData();
      var total := SubtotalSum(cart);
      db.SaveData(data.(vendas := data.vendas + [Sale(|data.vendas| + 1, Some(username), cart, total)]));
      ClearCart();
      return Completed(total);
    }

    /**
     * Checkout made all-or-nothing: the debits are computed on the loaded catalog
     * first and saved together with the sale, so any refusal leaves the store and
     * the cart exactly as they were.
     */
    method CheckoutAllOrNothing() returns (r: CheckoutResult)
      requires Valid()
      modifies this, db
      ensures r == CheckoutOutcome(old(Catalog()), old(cart))
      ensures !r.Completed? ==> cart == old(cart) && db.file == old(db.file)
      ensures r.Completed? ==> var d := old(db.LoadData()); var vs := d.vendas;
        && cart == []
        && db.file == Present(Data(DebitAll(d.produtos, old(cart)).produtos, d.usuarios, vs + [SaleFor(vs, old(cart))]))
      ensures AllStocked(old(Catalog())) ==> AllStocked(Catalog())
    {
      if |cart| == 0 {
        return EmptyCart;
      }
      var bad := Validate();
      if bad.Some? {
        var k := bad.value;
        var product := productManager.FindProduct(cart[k].produto);
        if product.None? {
          return ProductVanished(cart[k].produto);
        }
        return InsufficientStock(cart[k].produto);
      }
      var data := db.LoadData();
      var staged := DebitAll(data.produtos, cart);
      if staged.refused.Some? {
        return StockUpdateFailed(staged.refused.value);
      }
      if AllStocked(data.produtos) {
        DebitAllKeepsStocked(data.produtos, cart);
      }
      var total := SubtotalSum(cart);
      db.SaveData(Data(staged.produtos, data.usuarios, data.vendas + [Sale(|data.vendas| + 1, Some(username), cart, total)]));
      ClearCart();
      return Completed(total);
    }
  }

  /** A catalog in which some name was found can only have come from a readable file. */
  lemma CatalogPresent(f: StoreFile, name: string)
    requires Find(Load(f).produtos, name).Some?
    ensures f == Present(Load(f))
  {
  }

  /** Validation stops at line `i` when every earlier line passed and line `i` fails. */
  lemma FirstUncoveredAt(ps: seq<Product>, lines: seq<CartLine>, i: nat)
    requires i < |lines| && !Covered(ps, lines[i])
    requires forall k :: 0 <= k < i ==> Covered(ps, lines[k])
    ensures FirstUncovered(ps, lines) == Some(i)
  {
    var r := FirstUncovered(ps, lines);
    assert r.Some?;
    assert !(r.value < i);
    assert !(r.value > i);
  }

  /** After a refusal the loop's later turns change nothing. */
  lemma {:induction false} DebitPrefixRefused(ps: seq<Product>, lines: seq<CartLine>, k: nat, n: nat)
    requires k <= n <= |lines|
    requires DebitPrefix(ps, lines, k).refused.Some?
    ensures DebitPrefix(ps, lines, n) == DebitPrefix(ps, lines, k)
    decreases n
  {
    if n > k {
      DebitPrefixRefused(ps, lines, k, n - 1);
    }
  }

  /** A refusal at line `i` is what the whole cart's debit reports, with the earlier debits kept. */
  lemma DebitAllStops(ps: seq<Product>, lines: seq<CartLine>, i: nat)
    requires i < |lines|
    requires DebitPrefix(ps, lines, i).refused.None?
    requires StockUpdate(DebitPrefix(ps, lines, i).produtos, lines[i].produto, -lines[i].quantidade).None?
    ensures DebitAll(ps, lines) == Debit(DebitPrefix(ps, lines, i).produtos, Some(lines[i].produto))
  {
    assert DebitPrefix(ps, lines, i + 1) == Debit(DebitPrefix(ps, lines, i).produtos, Some(lines[i].produto));
    DebitPrefixRefused(ps, lines, i + 1, |lines|);
  }
}
