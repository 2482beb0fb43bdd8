/**
 * `api.py`: the in-memory HTTP API. The module-level lists `produtos`, `usuarios`,
 * `vendas` and the dictionary `carrinhos` are the fields of one `MemoryStore`
 * object; each route handler is a method that answers with a value or an
 * `ApiError` (the `HTTPException` with its status code).
 */
module Api {
  import opened Wrappers
  import Text

  /** A product as posted: `{nome, preco, quantidade}`, with no id. */
  datatype Produto = Produto(nome: string, preco: int, quantidade: int)

  /** A cart line `{nome, quantidade, preco}`. */
  datatype Item = Item(nome: string, quantidade: int, preco: int)

  datatype Usuario = Usuario(nome: string, nivelAcesso: Option<string>)

  /** A sale `{usuario, itens, total}`: the cart's lines copied at checkout. */
  datatype Venda = Venda(usuario: string, itens: seq<Item>, total: int)

  /** The `HTTPException`s the handlers raise. */
  datatype ApiError =
    | ProdutoNaoEncontrado
    | ProdutoJaExiste
    | QuantidadeIndisponivel
    | NaoEncontradoNoCarrinho
    | CarrinhoVazio
    | UsuarioJaExiste
  {
    function Status(): int {
      match this
      case ProdutoNaoEncontrado => 404
      case NaoEncontradoNoCarrinho => 404
      case _ => 400
    }

    function Detail(): string {
      match this
      case ProdutoNaoEncontrado => "Produto não encontrado"
      case ProdutoJaExiste => "Produto já existe"
      case QuantidadeIndisponivel => "Quantidade indisponível"
      case NaoEncontradoNoCarrinho => "Produto não encontrado no carrinho"
      case CarrinhoVazio => "Carrinho vazio"
      case UsuarioJaExiste => "Usuário já existe"
    }
  }

  datatype Reply<T> = Ok(value: T) | Error(error: ApiError)

  /** The default of `NewUserIn.nivel_acesso`. */
  const DefaultNivel := "usuario"

  function ProdutoNames(ps: seq<Produto>): (ns: seq<string>)
    ensures |ns| == |ps| && forall i :: 0 <= i < |ps| ==> ns[i] == ps[i].nome
  {
    seq(|ps|, i requires 0 <= i < |ps| => ps[i].nome)
  }

  function ItemNames(items: seq<Item>): (ns: seq<string>)
    ensures |ns| == |items| && forall i :: 0 <= i < |items| ==> ns[i] == items[i].nome
  {
    seq(|items|, i requires 0 <= i < |items| => items[i].nome)
  }

  function UsuarioNames(us: seq<Usuario>): (ns: seq<string>)
    ensures |ns| == |us| && forall i :: 0 <= i < |us| ==> ns[i] == us[i].nome
  {
    seq(|us|, i requires 0 <= i < |us| => us[i].nome)
  }

  /** `find_product`: the position of the first product named `nome` up to case, or None. */
  function FindProduct(ps: seq<Produto>, nome: string): (r: Option<nat>)
    ensures r.Some? ==> r.value < |ps| && Text.EqualsIgnoreCase(ps[r.value].nome, nome)
    ensures r.Some? ==> forall j :: 0 <= j < r.value ==> !Text.EqualsIgnoreCase(ps[j].nome, nome)
    ensures r.None? <==> forall j :: 0 <= j < |ps| ==> !Text.EqualsIgnoreCase(ps[j].nome, nome)
  {
    Text.FirstIgnoreCase(ProdutoNames(ps), nome)
  }

  /** No two names are equal up to case. */
  predicate DistinctIgnoreCase(ns: seq<string>) {
    forall i, j :: 0 <= i < j < |ns| ==> !Text.EqualsIgnoreCase(ns[i], ns[j])
  }

  /** Appending a name that matches none of the others keeps the names distinct. */
  lemma DistinctAppend(ns: seq<string>, n: string)
    requires DistinctIgnoreCase(ns)
    requires Text.FirstIgnoreCase(ns, n).None?
    ensures DistinctIgnoreCase(ns + [n])
  {
    forall i, j | 0 <= i < j < |ns| + 1
      ensures !Text.EqualsIgnoreCase((ns + [n])[i], (ns + [n])[j])
    {
      if j == |ns| {
        assert !Text.EqualsIgnoreCase(ns[i], n);
      }
    }
  }

  /** Dropping one position keeps the names distinct. */
  lemma DistinctRemove(ns: seq<string>, k: nat)
    requires DistinctIgnoreCase(ns) && k < |ns|
    ensures DistinctIgnoreCase(ns[..k] + ns[k + 1..])
  {
    var ms := ns[..k] + ns[k + 1..];
    forall i, j | 0 <= i < j < |ms|
      ensures !Text.EqualsIgnoreCase(ms[i], ms[j])
    {
      var i', j' := if i < k then i else i + 1, if j < k then j else j + 1;
      assert ms[i] == ns[i'] && ms[j] == ns[j'];
    }
  }

  /**
   * In a catalog of distinct names, deleting the first match (`deletar_produto`)
   * leaves no product of that name at all.
   */
  lemma DeleteFirstRemovesName(ps: seq<Produto>, nome: string)
    requires DistinctIgnoreCase(ProdutoNames(ps))
    requires FindProduct(ps, nome).Some?
    ensures var k := FindProduct(ps, nome).value;
      FindProduct(ps[..k] + ps[k + 1..], nome).None?
  {
    var k := FindProduct(ps, nome).value;
    var qs := ps[..k] + ps[k + 1..];
    forall j | 0 <= j < |qs|
      ensures !Text.EqualsIgnoreCase(qs[j].nome, nome)
    {
      var j' := if j < k then j else j + 1;
      assert qs[j] == ps[j'];
      if j' > k {
        assert !Text.EqualsIgnoreCase(ProdutoNames(ps)[k], ProdutoNames(ps)[j']);
      }
    }
  }

  /** `sum(item["preco"] * item["quantidade"] for item in cart)`. */
  function CartValue(items: seq<Item>): int
    decreases |items|
  {
    if |items| == 0 then 0 else CartValue(items[..|items| - 1]) + items[|items| - 1].preco * items[|items| - 1].quantidade
  }

  /** The cart stored for `username`, or the empty cart `get_cart` would create. */
  function CartOf(carrinhos: map<string, seq<Item>>, username: string): seq<Item> {
    if username in carrinhos then carrinhos[username] else []
  }

  /**
   * The cart after `remover_carrinho`: the first line named `nome` up to case is
   * removed when `quantidade` is None or covers it, decremented otherwise.
   */
  function RemovedItem(cart: seq<Item>, nome: string, quantidade: Option<int>): (r: Option<seq<Item>>)
    ensures r.Some? <==> Text.FirstIgnoreCase(ItemNames(cart), nome).Some?
  {
    match Text.FirstIgnoreCase(ItemNames(cart), nome)
    case None => None
    case Some(i) =>
      if quantidade.None? || quantidade.value >= cart[i].quantidade then Some(cart[..i] + cart[i + 1..])
      else Some(cart[i := cart[i].(quantidade := cart[i].quantidade - quantidade.value)])
  }

  /** Removal touches the first matching line only: every other line keeps its place and value. */
  lemma RemovedItemEffect(cart: seq<Item>, nome: string, quantidade: Option<int>)
    requires Text.FirstIgnoreCase(ItemNames(cart), nome).Some?
    ensures var i := Text.FirstIgnoreCase(ItemNames(cart), nome).value; var c := RemovedItem(cart, nome, quantidade).value;
      if quantidade.None? || quantidade.value >= cart[i].quantidade then
        |c| == |cart| - 1 && (forall j :: 0 <= j < i ==> c[j] == cart[j]) && (forall j :: i < j < |cart| ==> c[j - 1] == cart[j])
      else
        |c| == |cart| && c[i].quantidade == cart[i].quantidade - quantidade.value
        && c[i].nome == cart[i].nome && c[i].preco == cart[i].preco
        && (forall j :: 0 <= j < |cart| && j != i ==> c[j] == cart[j])
  {
    var i := Text.FirstIgnoreCase(ItemNames(cart), nome).value;
    if quantidade.None? || quantidade.value >= cart[i].quantidade {
      var c := cart[..i] + cart[i + 1..];
      assert RemovedItem(cart, nome, quantidade).value == c;
      forall j | 0 <= j < i
        ensures c[j] == cart[j]
      {
        assert c[j] == cart[..i][j];
      }
      forall j | i < j < |cart|
        ensures c[j - 1] == cart[j]
      {
        assert c[j - 1] == cart[i + 1..][j - 1 - i];
      }
    } else {
      assert RemovedItem(cart, nome, quantidade).value == cart[i := cart[i].(quantidade := cart[i].quantidade - quantidade.value)];
    }
  }

  /** The value of a concatenation is the sum of the values. */
  lemma {:induction false} CartValueConcat(a: seq<Item>, b: seq<Item>)
    ensures CartValue(a + b) == CartValue(a) + CartValue(b)
    decreases |b|
  {
    if |b| > 0 {
      assert (a + b)[..|a + b| - 1] == a + b[..|b| - 1];
      CartValueConcat(a, b[..|b| - 1]);
    } else {
      assert a + b == a;
    }
  }

  /** A cart is worth its part before line `i`, plus that line, plus its part after. */
  lemma CartValueAround(cart: seq<Item>, i: nat)
    requires i < |cart|
    ensures CartValue(cart) == CartValue(cart[..i]) + cart[i].preco * cart[i].quantidade + CartValue(cart[i + 1..])
  {
    var a, l, b := cart[..i], [cart[i]], cart[i + 1..];
    assert cart[i..] == l + b;
    assert cart == a + cart[i..];
    CartValueConcat(a, cart[i..]);
    CartValueConcat(l, b);
    assert CartValue(l) == cart[i].preco * cart[i].quantidade by {
      assert l[..0] == [];
    }
  }

  /** Dropping line `i` takes its value off the total. */
  lemma DropItemValue(cart: seq<Item>, i: nat)
    requires i < |cart|
    ensures CartValue(cart[..i] + cart[i + 1..]) == CartValue(cart) - cart[i].preco * cart[i].quantidade
  {
    CartValueAround(cart, i);
    CartValueConcat(cart[..i], cart[i + 1..]);
  }

  /** Lowering line `i`'s quantity by `q` takes `preco * q` off the total. */
  lemma ReduceItemValue(cart: seq<Item>, i: nat, q: int)
    requires i < |cart|
    ensures CartValue(cart[i := cart[i].(quantidade := cart[i].quantidade - q)]) == CartValue(cart) - cart[i].preco * q
  {
    var l := cart[i].(quantidade := cart[i].quantidade - q);
    var c := cart[i := l];
    assert c[..i] == cart[..i] && c[i + 1..] == cart[i + 1..];
    CartValueAround(cart, i);
    CartValueAround(c, i);
    assert l.preco * l.quantidade == cart[i].preco * cart[i].quantidade - cart[i].preco * q;
  }

  /**
   * What `remover_carrinho` takes off the checkout total: the whole line's value when
   * the line goes, `preco * quantidade` of the removed amount otherwise.
   */
  lemma RemovedItemValue(cart: seq<Item>, nome: string, quantidade: Option<int>)
    requires Text.FirstIgnoreCase(ItemNames(cart), nome).Some?
    ensures var i := Text.FirstIgnoreCase(ItemNames(cart), nome).value; var c := RemovedItem(cart, nome, quantidade).value;
      CartValue(c) == CartValue(cart) -
        (if quantidade.None? || quantidade.value >= cart[i].quantidade then cart[i].preco * cart[i].quantidade
         else cart[i].preco * quantidade.value)
  {
    var i := Text.FirstIgnoreCase(ItemNames(cart), nome).value;
    if quantidade.None? || quantidade.value >= cart[i].quantidade {
      DropItemValue(cart, i);
    } else {
      ReduceItemValue(cart, i, quantidade.value);
    }
  }

  class MemoryStore {
    var produtos: seq<Produto>
    var usuarios: seq<Usuario>
    var vendas: seq<Venda>
    var carrinhos: map<string, seq<Item>>

    /** The names of the products, and of the users, are distinct up to case. */
    predicate Valid()
      reads this
    {
      DistinctIgnoreCase(ProdutoNames(produtos)) && DistinctIgnoreCase(UsuarioNames(usuarios))
    }

    /** The module's initial state: every table empty. */
    constructor ()
      ensures produtos == [] && usuarios == [] && vendas == [] && carrinhos == map[]
      ensures Valid()
    {
      produtos, usuarios, vendas, carrinhos := [], [], [], map[];
    }

    /** `listar_produtos`. */
    function ListarProdutos(): (r: seq<Produto>)
      reads this
      ensures r == produtos
      ensures forall i :: 0 <= i < |r| ==> BuscarProduto(r[i].nome).Ok?
    {
      produtos
    }

    /** `buscar_produto`: the first product named `nome` up to case, or 404. */
    function BuscarProduto(nome: string): (r: Reply<Produto>)
      reads this
      ensures r.Ok? <==> exists p :: p in produtos && Text.EqualsIgnoreCase(p.nome, nome)
      ensures r.Ok? ==> r.value == produtos[FindProduct(produtos, nome).value]
      ensures r.Error? ==> r.error == ProdutoNaoEncontrado
    {
      match FindProduct(produtos, nome)
      case None => Error(ProdutoNaoEncontrado)
      case Some(i) => assert produtos[i] in produtos; Ok(produtos[i])
    }

    /** `criar_produto`: rejected when the name is taken up to case, otherwise exactly one product appended. */
    method CriarProduto(nome: string, preco: int, quantidade: int) returns (r: Reply<Produto>)
      modifies this
      ensures r.Error? <==> FindProduct(old(produtos), nome).Some?
      ensures r.Error? ==> r.error == ProdutoJaExiste && produtos == old(produtos)
      ensures r.Ok? ==> r.value == Produto(nome, preco, quantidade) && produtos == old(produtos) + [r.value]
      ensures usuarios == old(usuarios) && vendas == old(vendas) && carrinhos == old(carrinhos)
      ensures old(Valid()) ==> Valid()
    {
      if FindProduct(produtos, nome).Some? {
        return Error(ProdutoJaExiste);
      }
      var produto := Produto(nome, preco, quantidade);
      if Valid() {
        assert ProdutoNames(produtos + [produto]) == ProdutoNames(produtos) + [nome];
        DistinctAppend(ProdutoNames(produtos), nome);
      }
      produtos := produtos + [produto];
      return Ok(produto);
    }

    /** `atualizar_produto`: the matched product gets the fields given as non-None; 404 when none matches. */
    method AtualizarProduto(nome: string, novoPreco: Option<int> := None, novaQuantidade: Option<int> := None)
      returns (r: Reply<Produto>)
      modifies this
      ensures r.Error? <==> FindProduct(old(produtos), nome).None?
      ensures r.Error? ==> r.error == ProdutoNaoEncontrado && produtos == old(produtos)
      ensures r.Ok? ==> var i := FindProduct(old(produtos), nome).value; var p := old(produtos)[i];
        && r.value == Produto(p.nome, novoPreco.GetOr(p.preco), novaQuantidade.GetOr(p.quantidade))
        && produtos == old(produtos)[i := r.value]
      ensures usuarios == old(usuarios) && vendas == old(vendas) && carrinhos == old(carrinhos)
      ensures old(Valid()) ==> Valid()
    {
      var found := FindProduct(produtos, nome);
      if found.None? {
        return Error(ProdutoNaoEncontrado);
      }
      var i := found.value;
      var produto := produtos[i];
      if novoPreco.Some? {
        produto := produto.(preco := novoPreco.value);
      }
      if novaQuantidade.Some? {
        produto := produto.(quantidade := novaQuantidade.value);
      }
      assert ProdutoNames(produtos[i := produto]) == ProdutoNames(produtos);
      produtos := produtos[i := produto];
      return Ok(produto);
    }

    /** `deletar_produto`: exactly the first matching product is removed; 404 when none matches. */
    method DeletarProduto(nome: string) returns (r: Reply<Produto>)
      modifies this
      ensures r.Error? <==> FindProduct(old(produtos), nome).None?
      ensures r.Error? ==> r.error == ProdutoNaoEncontrado && produtos == old(produtos)
      ensures r.Ok? ==> var i := FindProduct(old(produtos), nome).value;
        r.value == old(produtos)[i] && produtos == old(produtos)[..i] + old(produtos)[i + 1..]
      ensures usuarios == old(usuarios) && vendas == old(vendas) && carrinhos == old(carrinhos)
      ensures old(Valid()) ==> Valid()
    {
      var found := FindProduct(produtos, nome);
      if found.None? {
        return Error(ProdutoNaoEncontrado);
      }
      var i := found.value;
      var produto := produtos[i];
      // `produtos.remove(produto)` drops the first element equal to it: every earlier one has another name.
      if Valid() {
        assert ProdutoNames(produtos[..i] + produtos[i + 1..]) == ProdutoNames(produtos)[..i] + ProdutoNames(produtos)[i + 1..];
        DistinctRemove(ProdutoNames(produtos), i);
      }
      produtos := produtos[..i] + produtos[i + 1..];
      return Ok(produto);
    }

    /** `get_cart`: creates an empty cart on first access and returns the stored one afterwards. */
    method GetCart(username: string) returns (cart: seq<Item>)
      modifies this
      ensures cart == CartOf(old(carrinhos), username)
      ensures carrinhos == old(carrinhos)[username := cart]
      ensures username in old(carrinhos) ==> carrinhos == old(carrinhos)
      ensures produtos == old(produtos) && usuarios == old(usuarios) && vendas == old(vendas)
    {
      if username !in carrinhos {
        carrinhos := carrinhos[username := []];
      }
      return carrinhos[username];
    }

    /**
     * `adicionar_carrinho`: 404 when the product is missing, 400 when its stock is
     * below the quantity, otherwise a new line is appended (never merged) with the
     * current price; the catalog is not touched.
     */
    method AdicionarCarrinho(username: string, produtoNome: string, quantidade: int) returns (r: Reply<seq<Item>>)
      modifies this
      ensures var found := FindProduct(produtos, produtoNome);
        r == if found.None? then Error(ProdutoNaoEncontrado)
             else if produtos[found.value].quantidade < quantidade then Error(QuantidadeIndisponivel)
             else Ok(CartOf(old(carrinhos), username) + [Item(produtoNome, quantidade, produtos[found.value].preco)])
      ensures r.Error? ==> carrinhos == old(carrinhos)
      ensures r.Ok? ==> carrinhos == old(carrinhos)[username := r.value]
      ensures produtos == old(produtos) && usuarios == old(usuarios) && vendas == old(vendas)
    {
      var found := FindProduct(produtos, produtoNome);
      if found.None? {
        return Error(ProdutoNaoEncontrado);
      }
      var produto := produtos[found.value];
      if produto.quantidade < quantidade {
        return Error(QuantidadeIndisponivel);
      }
      var cart := GetCart(username);
      cart := cart + [Item(produtoNome, quantidade, produto.preco)];
      carrinhos := carrinhos[username := cart];
      return Ok(cart);
    }

    /**
     * `remover_carrinho`: acts on the first line named `produto_nome` up to case;
     * 404, with the cart's lines unchanged, when there is none. `get_cart` runs
     * first, so an unknown user is left with an empty cart either way.
     */
    method RemoverCarrinho(username: string, produtoNome: string, quantidade: Option<int> := None)
      returns (r: Reply<seq<Item>>)
      modifies this
      ensures var cart := CartOf(old(carrinhos), username);
        r == match RemovedItem(cart, produtoNome, quantidade)
             case None => Error(NaoEncontradoNoCarrinho)
             case Some(c) => Ok(c)
      ensures r.Error? ==> carrinhos == old(carrinhos)[username := CartOf(old(carrinhos), username)]
      ensures r.Ok? ==> carrinhos == old(carrinhos)[username := r.value]
      ensures produtos == old(produtos) && usuarios == old(usuarios) && vendas == old(vendas)
    {
      var cart := GetCart(username);
      ghost var before := cart;
      var i := 0;
      while i < |cart|
        invariant 0 <= i <= |cart|
        invariant carrinhos == old(carrinhos)[username := cart] && cart == before == CartOf(old(carrinhos), username)
        invariant forall j :: 0 <= j < i ==> !Text.EqualsIgnoreCase(cart[j].nome, produtoNome)
      {
        var item := cart[i];
        if Text.Lower(item.nome) == Text.Lower(produtoNome) {
          assert Text.FirstIgnoreCase(ItemNames(cart), produtoNome) == Some(i);
          if quantidade.None? || quantidade.value >= item.quantidade {
            // `cart.remove(item)` drops the first element equal to `item`, which is this one.
            cart := cart[..i] + cart[i + 1..];
          } else {
            cart := cart[i := item.(quantidade := item.quantidade - quantidade.value)];
          }
          assert RemovedItem(before, produtoNome, quantidade) == Some(cart);
          carrinhos := carrinhos[username := cart];
          return Ok(cart);
        }
        i := i + 1;
      }
      assert RemovedItem(before, produtoNome, quantidade).None?;
      return Error(NaoEncontradoNoCarrinho);
    }

    /** `ver_carrinho`: the user's cart, created empty on first access. */
    method VerCarrinho(username: string) returns (cart: seq<Item>)
      modifies this
      ensures cart == CartOf(old(carrinhos), username) && carrinhos == old(carrinhos)[username := cart]
      ensures produtos == old(produtos) && usuarios == old(usuarios) && vendas == old(vendas)
    {
      cart := GetCart(username);
    }

    /** `limpar_carrinho`: the user's cart becomes empty. */
    method LimparCarrinho(username: string)
      modifies this
      ensures carrinhos == old(carrinhos)[username := []]
      ensures produtos == old(produtos) && usuarios == old(usuarios) && vendas == old(vendas)
    {
      carrinhos := carrinhos[username := []];
    }

    /**
     * `finalizar_compra`: 400 on an empty cart; otherwise one sale holding the cart's
     * lines and `total = sum(preco * quantidade)` is appended and the cart reset.
     * The catalog's stock is not decremented.
     */
    method FinalizarCompra(username: string) returns (r: Reply<int>)
      modifies this
      ensures var cart := CartOf(old(carrinhos), username);
        r == if cart == [] then Error(CarrinhoVazio) else Ok(CartValue(cart))
      ensures r.Error? ==> vendas == old(vendas) && carrinhos == old(carrinhos)[username := []]
      ensures r.Ok? ==> vendas == old(vendas) + [Venda(username, CartOf(old(carrinhos), username), r.value)]
      ensures carrinhos == old(carrinhos)[username := []]
      ensures produtos == old(produtos) && usuarios == old(usuarios)
    {
      var cart := GetCart(username);
      if cart == [] {
        return Error(CarrinhoVazio);
      }
      var total := CartValue(cart);
      vendas := vendas + [Venda(username, cart, total)];
      carrinhos := carrinhos[username := []];
      return Ok(total);
    }

    /** `listar_usuarios`. */
    function ListarUsuarios(): (r: seq<Usuario>)
      reads this
      ensures r == usuarios
    {
      usuarios
    }

    /** `listar_vendas`. */
    function ListarVendas(): (r: seq<Venda>)
      reads this
      ensures r == vendas
    {
      vendas
    }

    /**
     * `criar_usuario`: rejected when the name is taken up to case, otherwise one user
     * appended; an omitted access level is "usuario".
     */
    method CriarUsuario(nome: string, nivelAcesso: Option<string> := Some(DefaultNivel)) returns (r: Reply<Usuario>)
      modifies this
      ensures r.Error? <==> exists u :: u in old(usuarios) && Text.EqualsIgnoreCase(u.nome, nome)
      ensures r.Error? ==> r.error == UsuarioJaExiste && usuarios == old(usuarios)
      ensures r.Ok? ==> r.value == Usuario(nome, nivelAcesso) && usuarios == old(usuarios) + [r.value]
      ensures produtos == old(produtos) && vendas == old(vendas) && carrinhos == old(carrinhos)
      ensures old(Valid()) ==> Valid()
    {
      var taken := Text.FirstIgnoreCase(UsuarioNames(usuarios), nome);
      if taken.Some? {
        assert usuarios[taken.value] in usuarios;
        return Error(UsuarioJaExiste);
      }
      var novo := Usuario(nome, nivelAcesso);
      if Valid() {
        assert UsuarioNames(usuarios + [novo]) == UsuarioNames(usuarios) + [nome];
        DistinctAppend(UsuarioNames(usuarios), nome);
      }
      usuarios := usuarios + [novo];
      return Ok(novo);
    }
  }
}
