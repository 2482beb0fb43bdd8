/**
 * The records of the supermarket store shared by `modules/` and `main.py`:
 * products, cart lines, users and sales, the three tables of the JSON store,
 * and the catalog operations both copies of the code perform on the product table.
 * Prices and money totals are integer cents.
 */
module Domain {
  import opened Wrappers
  import Text

  /** A catalog entry `{id, nome, preco, quantidade}`; `quantidade` is the stock. */
  datatype Product = Product(id: int, nome: string, preco: int, quantidade: int)

  /** A cart line `{produto, quantidade, preco_unitario, subtotal}`; the unit price is a snapshot. */
  datatype CartLine = CartLine(produto: string, quantidade: int, precoUnitario: int, subtotal: int)

  /** A user record: `modules/database.py` stores an access level, `main.py` stores none (only a timestamp). */
  datatype User = User(nome: string, nivelAcesso: Option<string>)

  /** A sale record: the cart's lines copied at checkout and their total (`usuario` is None when nobody logged in). */
  datatype Sale = Sale(id: int, usuario: Option<string>, itens: seq<CartLine>, total: int)

  /** The whole store: the JSON object `{produtos, usuarios, vendas}`. */
  datatype Data = Data(produtos: seq<Product>, usuarios: seq<User>, vendas: seq<Sale>)

  const EmptyData := Data([], [], [])

  /** The store file: absent, present but not decodable as JSON, or holding data. */
  datatype StoreFile = Missing | Unreadable | Present(data: Data)

  /** `load_data`: the file's data, or empty tables when it is missing or cannot be decoded. */
  function Load(f: StoreFile): (d: Data)
    ensures f.Present? || d == EmptyData
  {
    if f.Present? then f.data else EmptyData
  }

  /** Saving then loading gives back what was saved, and a failed read yields empty tables. */
  lemma LoadSaved(d: Data)
    ensures Load(Present(d)) == d
    ensures Load(Missing) == EmptyData && Load(Unreadable) == EmptyData
  {
  }

  // ---------------------------------------------------------------- catalog

  function Names(ps: seq<Product>): (ns: seq<string>)
    ensures |ns| == |ps| && forall i :: 0 <= i < |ps| ==> ns[i] == ps[i].nome
  {
    seq(|ps|, i requires 0 <= i < |ps| => ps[i].nome)
  }

  /** `produto['nome'].lower() == name.lower()`. */
  predicate Named(p: Product, name: string) {
    Text.EqualsIgnoreCase(p.nome, name)
  }

  /** Index of the first product named `name` up to case (`find_product`). */
  function FindIndex(ps: seq<Product>, name: string): (r: Option<nat>)
    ensures r.Some? ==> r.value < |ps| && Named(ps[r.value], name)
    ensures r.Some? ==> forall j :: 0 <= j < r.value ==> !Named(ps[j], name)
    ensures r.None? <==> forall j :: 0 <= j < |ps| ==> !Named(ps[j], name)
  {
    Text.FirstIgnoreCase(Names(ps), name)
  }

  /** `find_product`: the first product named `name` up to case, or None. */
  function Find(ps: seq<Product>, name: string): (r: Option<Product>)
    ensures r.Some? <==> FindIndex(ps, name).Some?
    ensures r.Some? ==> r.value == ps[FindIndex(ps, name).value]
  {
    match FindIndex(ps, name)
    case None => None
    case Some(i) => Some(ps[i])
  }

  /** The catalog after `add_product` / `add_product_voice`: one product appended, its id one more than the old count. */
  function Appended(ps: seq<Product>, nome: string, preco: int, quantidade: int): seq<Product> {
    ps + [Product(|ps| + 1, nome, preco, quantidade)]
  }

  /**
   * There is no duplicate-name check: the appended product is found by its name
   * only when no earlier product already answers to it.
   */
  lemma FindAppended(ps: seq<Product>, nome: string, preco: int, quantidade: int, name: string)
    ensures var qs := Appended(ps, nome, preco, quantidade);
      FindIndex(qs, name) ==
        if FindIndex(ps, name).Some? then FindIndex(ps, name)
        else if Text.EqualsIgnoreCase(nome, name) then Some(|ps|)
        else None
  {
    var qs := Appended(ps, nome, preco, quantidade);
    assert Names(qs) == Names(ps) + [nome];
    Text.FirstIgnoreCaseAppend(Names(ps), nome, name);
  }

  /** The catalog after `update_product`'s assignments to one product: only the fields given are replaced. */
  function Updated(p: Product, newPrice: Option<int>, newQuantity: Option<int>): (q: Product)
    ensures q.id == p.id && q.nome == p.nome
    ensures q.preco == newPrice.GetOr(p.preco) && q.quantidade == newQuantity.GetOr(p.quantidade)
  {
    p.(preco := newPrice.GetOr(p.preco), quantidade := newQuantity.GetOr(p.quantidade))
  }

  /** `[p for p in produtos if p['nome'].lower() != name.lower()]`. */
  function WithoutName(ps: seq<Product>, name: string): (qs: seq<Product>)
    ensures |qs| <= |ps|
    decreases |ps|
  {
    if |ps| == 0 then []
    else if Named(ps[0], name) then WithoutName(ps[1..], name)
    else [ps[0]] + WithoutName(ps[1..], name)
  }

  /** The filter keeps exactly the products not answering to `name`. */
  lemma {:induction false} WithoutNameMembers(ps: seq<Product>, name: string, p: Product)
    ensures p in WithoutName(ps, name) <==> p in ps && !Named(p, name)
    decreases |ps|
  {
    if |ps| > 0 {
      WithoutNameMembers(ps[1..], name, p);
      assert ps == [ps[0]] + ps[1..];
    }
  }

  /** The filter keeps the survivors in their order: it distributes over concatenation. */
  lemma {:induction false} WithoutNameConcat(a: seq<Product>, b: seq<Product>, name: string)
    ensures WithoutName(a + b, name) == WithoutName(a, name) + WithoutName(b, name)
    decreases |a|
  {
    if |a| > 0 {
      assert (a + b)[1..] == a[1..] + b;
      WithoutNameConcat(a[1..], b, name);
    } else {
      assert a + b == b;
    }
  }

  /** The table shrinks exactly when some product answers to `name` (`remove_product`'s result). */
  lemma {:induction false} WithoutNameShrinks(ps: seq<Product>, name: string)
    ensures |WithoutName(ps, name)| < |ps| <==> FindIndex(ps, name).Some?
    decreases |ps|
  {
    if |ps| > 0 {
      WithoutNameShrinks(ps[1..], name);
      assert Names(ps)[1..] == Names(ps[1..]);
    }
  }

  /**
   * `update_stock(name, change)`: the first product named `name` up to case gets
   * stock `quantidade + change`, unless that is negative; None when it is refused
   * or no product matches. Stated product by product; `StockUpdateAtFirstMatch`
   * gives the same update by the index of the first match.
   */
  function StockUpdate(ps: seq<Product>, name: string, change: int): (r: Option<seq<Product>>)
    ensures r.Some? ==> |r.value| == |ps|
    decreases |ps|
  {
    if |ps| == 0 then None
    else if Named(ps[0], name) then
      if ps[0].quantidade + change < 0 then None
      else Some([ps[0].(quantidade := ps[0].quantidade + change)] + ps[1..])
    else match StockUpdate(ps[1..], name, change)
      case None => None
      case Some(rest) => Some([ps[0]] + rest)
  }

  /** A product that does not answer to `name` moves the first match one place on. */
  lemma FindIndexSkip(ps: seq<Product>, name: string)
    requires |ps| > 0 && !Named(ps[0], name)
    ensures FindIndex(ps, name) ==
      match FindIndex(ps[1..], name)
      case None => None
      case Some(k) => Some(k + 1)
  {
    assert Names(ps)[1..] == Names(ps[1..]);
  }

  /** The update is the one `update_stock`'s loop makes: at the index of the first match, if the stock stays non-negative. */
  lemma {:induction false} StockUpdateAtFirstMatch(ps: seq<Product>, name: string, change: int)
    ensures StockUpdate(ps, name, change) ==
      match FindIndex(ps, name)
      case None => None
      case Some(i) =>
        if ps[i].quantidade + change < 0 then None
        else Some(ps[i := ps[i].(quantidade := ps[i].quantidade + change)])
    decreases |ps|
  {
    if |ps| > 0 {
      if Named(ps[0], name) {
        assert FindIndex(ps, name) == Some(0);
        var q := ps[0].(quantidade := ps[0].quantidade + change);
        assert [q] + ps[1..] == ps[0 := q];
      } else {
        FindIndexSkip(ps, name);
        StockUpdateAtFirstMatch(ps[1..], name, change);
        match FindIndex(ps[1..], name)
        case None =>
        case Some(k) =>
          var q := ps[k + 1].(quantidade := ps[k + 1].quantidade + change);
          assert [ps[0]] + ps[1..][k := q] == ps[k + 1 := q];
      }
    }
  }

  /** Every stock is non-negative. */
  predicate AllStocked(ps: seq<Product>) {
    forall i :: 0 <= i < |ps| ==> ps[i].quantidade >= 0
  }

  /**
   * An accepted stock update changes the stock of the first match only, by exactly
   * `change`, and never leaves a negative stock behind when there was none before.
   */
  lemma StockUpdateEffect(ps: seq<Product>, name: string, change: int)
    requires StockUpdate(ps, name, change).Some?
    ensures FindIndex(ps, name).Some?
    ensures var qs := StockUpdate(ps, name, change).value;
      var i := FindIndex(ps, name).value;
      && qs[i].quantidade == ps[i].quantidade + change >= 0
      && qs[i] == ps[i].(quantidade := qs[i].quantidade)
      && (forall j :: 0 <= j < |ps| && j != i ==> qs[j] == ps[j])
      && (AllStocked(ps) ==> AllStocked(qs))
  {
    StockUpdateAtFirstMatch(ps, name, change);
  }

  /** An update is refused exactly when no product matches or the new stock would be negative. */
  lemma StockUpdateRefused(ps: seq<Product>, name: string, change: int)
    ensures StockUpdate(ps, name, change).None? <==>
      (forall j :: 0 <= j < |ps| ==> !Named(ps[j], name))
      || ps[FindIndex(ps, name).value].quantidade + change < 0
  {
    StockUpdateAtFirstMatch(ps, name, change);
  }

  // ----------------------------------------------------------------- carts

  /** `sum(item['subtotal'] for item in cart)`. */
  function SubtotalSum(lines: seq<CartLine>): int
    decreases |lines|
  {
    if |lines| == 0 then 0 else SubtotalSum(lines[..|lines| - 1]) + lines[|lines| - 1].subtotal
  }

  /** The sum over a concatenation is the sum of the sums. */
  lemma {:induction false} SubtotalSumConcat(a: seq<CartLine>, b: seq<CartLine>)
    ensures SubtotalSum(a + b) == SubtotalSum(a) + SubtotalSum(b)
    decreases |b|
  {
    if |b| > 0 {
      assert (a + b)[..|a + b| - 1] == a + b[..|b| - 1];
      SubtotalSumConcat(a, b[..|b| - 1]);
    } else {
      assert a + b == a;
    }
  }

  /** A cart sums to its part before line `i`, plus that line's subtotal, plus its part after. */
  lemma SubtotalSumAround(lines: seq<CartLine>, i: nat)
    requires i < |lines|
    ensures SubtotalSum(lines) == SubtotalSum(lines[..i]) + lines[i].subtotal + SubtotalSum(lines[i + 1..])
  {
    var a, l, b := lines[..i], [lines[i]], lines[i + 1..];
    assert lines[i..] == l + b;
    assert lines == a + lines[i..];
    SubtotalSumConcat(a, lines[i..]);
    SubtotalSumConcat(l, b);
    assert SubtotalSum(l) == lines[i].subtotal by {
      assert l[..0] == [];
    }
  }

  /** Changing one line changes the sum by the difference of the two subtotals. */
  lemma SubtotalSumUpdate(lines: seq<CartLine>, i: nat, l: CartLine)
    requires i < |lines|
    ensures SubtotalSum(lines[i := l]) == SubtotalSum(lines) - lines[i].subtotal + l.subtotal
  {
    var c := lines[i := l];
    assert c[..i] == lines[..i] && c[i + 1..] == lines[i + 1..];
    SubtotalSumAround(lines, i);
    SubtotalSumAround(c, i);
  }

  /** Removing one line takes its subtotal out of the sum. */
  lemma SubtotalSumRemove(lines: seq<CartLine>, i: nat)
    requires i < |lines|
    ensures SubtotalSum(lines[..i] + lines[i + 1..]) == SubtotalSum(lines) - lines[i].subtotal
  {
    SubtotalSumAround(lines, i);
    SubtotalSumConcat(lines[..i], lines[i + 1..]);
  }

  /** Every line's subtotal is its unit price times its quantity. */
  predicate SubtotalsExact(lines: seq<CartLine>) {
    forall k :: 0 <= k < |lines| ==> lines[k].subtotal == lines[k].precoUnitario * lines[k].quantidade
  }

  /** `sum(preco_unitario * quantidade)`, the amount the cart is worth at its snapshot prices. */
  function LineValue(lines: seq<CartLine>): int
    decreases |lines|
  {
    if |lines| == 0 then 0
    else LineValue(lines[..|lines| - 1]) + lines[|lines| - 1].precoUnitario * lines[|lines| - 1].quantidade
  }

  /** When every subtotal is exact, the subtotal sum is the cart's value. */
  lemma {:induction false} SubtotalSumExact(lines: seq<CartLine>)
    requires SubtotalsExact(lines)
    ensures SubtotalSum(lines) == LineValue(lines)
    decreases |lines|
  {
    if |lines| > 0 {
      SubtotalSumExact(lines[..|lines| - 1]);
    }
  }

  /** `any(u['nome'] == username for u in usuarios)`: exact, case-sensitive comparison. */
  function HasUser(us: seq<User>, name: string): (b: bool)
    ensures b <==> exists i :: 0 <= i < |us| && us[i].nome == name
    decreases |us|
  {
    if |us| == 0 then false else us[|us| - 1].nome == name || HasUser(us[..|us| - 1], name)
  }
}
