/**
 * The keyword dispatch of `main.py`: `handle_voice_command` and the menu of
 * `start_system` test keyword families in a fixed order with Python's substring
 * `in`, and the first family with a keyword inside the command wins.
 */
module Commands {
  import opened Wrappers
  import Text

  /** What `handle_voice_command` does with a command. */
  datatype Action =
    | NoCommand
    | AddProduct
    | ListProducts
    | UpdateProduct
    | RemoveProduct
    | AddToCart
    | ViewCart
    | Checkout
    | Logout
    | Unrecognized

  /** `any(word in command for word in words)`. */
  predicate ContainsAny(command: string, words: seq<string>)
    decreases |words|
  {
    |words| > 0 && (Text.Contains(command, words[0]) || ContainsAny(command, words[1..]))
  }

  const AddProductWords := ["cadastrar", "cadastro", "adicionar"]
  const ListWords := ["listar", "mostrar", "ver"]
  const UpdateWords := ["atualizar", "alterar", "mudar"]
  const RemoveWords := ["remover", "excluir", "deletar"]
  const CartAddWords := ["comprar", "adicionar carrinho"]
  const CartViewWords := ["carrinho", "meu carrinho"]
  const CheckoutWords := ["finalizar", "concluir", "checkout"]
  const LogoutWords := ["sair", "logout", "terminar"]

  /** The families in the order `handle_voice_command` tests them, with what each triggers. */
  const Families: seq<(seq<string>, Action)> := [
    (AddProductWords, AddProduct), (ListWords, ListProducts), (UpdateWords, UpdateProduct),
    (RemoveWords, RemoveProduct), (CartAddWords, AddToCart), (CartViewWords, ViewCart),
    (CheckoutWords, Checkout), (LogoutWords, Logout)]

  /** Index of the first family with a keyword in `command`. */
  function FirstFamily(command: string, fams: seq<(seq<string>, Action)>): (r: Option<nat>)
    ensures r.Some? ==> r.value < |fams| && ContainsAny(command, fams[r.value].0)
    ensures r.Some? ==> forall j :: 0 <= j < r.value ==> !ContainsAny(command, fams[j].0)
    ensures r.None? <==> forall j :: 0 <= j < |fams| ==> !ContainsAny(command, fams[j].0)
    decreases |fams|
  {
    if |fams| == 0 then None
    else if ContainsAny(command, fams[0].0) then Some(0)
    else match FirstFamily(command, fams[1..])
      case None => None
      case Some(k) => Some(k + 1)
  }

  /** `handle_voice_command`'s if/elif chain; None and "" are the "not command" case. */
  function Dispatch(command: Option<string>): (a: Action)
    ensures a == NoCommand <==> command.None? || command.value == ""
  {
    if command.None? || command.value == "" then NoCommand
    else
      var c := command.value;
      if ContainsAny(c, AddProductWords) then AddProduct
      else if ContainsAny(c, ListWords) then ListProducts
      else if ContainsAny(c, UpdateWords) then UpdateProduct
      else if ContainsAny(c, RemoveWords) then RemoveProduct
      else if ContainsAny(c, CartAddWords) then AddToCart
      else if ContainsAny(c, CartViewWords) then ViewCart
      else if ContainsAny(c, CheckoutWords) then Checkout
      else if ContainsAny(c, LogoutWords) then Logout
      else Unrecognized
  }

  /** The if/elif chain is the first match over the ordered table of families. */
  lemma DispatchIsFirstFamily(c: string)
    requires c != ""
    ensures Dispatch(Some(c)) == match FirstFamily(c, Families)
      case Some(k) => Families[k].1
      case None => Unrecognized
  {
    var r := FirstFamily(c, Families);
    assert Families[0].0 == AddProductWords && Families[1].0 == ListWords;
    assert Families[2].0 == UpdateWords && Families[3].0 == RemoveWords;
    assert Families[4].0 == CartAddWords && Families[5].0 == CartViewWords;
    assert Families[6].0 == CheckoutWords && Families[7].0 == LogoutWords;
    if r.Some? {
      var k := r.value;
      assert k < 8;
      assert k == 0 || !ContainsAny(c, AddProductWords);
      assert k <= 1 || !ContainsAny(c, ListWords);
      assert k <= 2 || !ContainsAny(c, UpdateWords);
      assert k <= 3 || !ContainsAny(c, RemoveWords);
      assert k <= 4 || !ContainsAny(c, CartAddWords);
      assert k <= 5 || !ContainsAny(c, CartViewWords);
      assert k <= 6 || !ContainsAny(c, CheckoutWords);
    }
  }

  /** `handle_voice_command`'s result: False only for the logout family. */
  function Continues(a: Action): bool {
    a != Logout
  }

  /** An occurrence found inside an occurrence is an occurrence: `in` is transitive. */
  lemma ContainsTrans(s: string, mid: string, sub: string)
    requires Text.Contains(s, mid) && Text.Contains(mid, sub)
    ensures Text.Contains(s, sub)
  {
    var i := ContainsWitness(s, mid);
    var j := ContainsWitness(mid, sub);
    assert forall t :: 0 <= t < |sub| ==> s[i + j + t] == mid[j + t] == sub[t];
    assert s[i + j..i + j + |sub|] == sub;
    Text.ContainsAt(s, sub, i + j);
  }

  /** The position of an occurrence. */
  lemma {:induction false} ContainsWitness(s: string, sub: string) returns (i: nat)
    requires Text.Contains(s, sub)
    ensures i + |sub| <= |s| && s[i..i + |sub|] == sub
    decreases |s|
  {
    if |sub| <= |s| && s[..|sub|] == sub {
      i := 0;
    } else {
      var k := ContainsWitness(s[1..], sub);
      assert s[1..][k..k + |sub|] == s[k + 1..k + 1 + |sub|];
      i := k + 1;
    }
  }

  /** "remover" contains "ver": every command saying "remover" goes to an earlier family, never to removal. */
  lemma RemoverNeverRemoves(c: string)
    requires Text.Contains(c, "remover")
    ensures Dispatch(Some(c)) in {AddProduct, ListProducts}
  {
    assert "remover"[4..7] == "ver";
    Text.ContainsAt("remover", "ver", 4);
    ContainsTrans(c, "remover", "ver");
    assert Text.Contains(c, ListWords[2]);
  }

  /** "adicionar carrinho" contains "adicionar": only "comprar" can reach the cart-add family. */
  lemma CartAddNeedsComprar(c: string)
    requires Dispatch(Some(c)) == AddToCart
    ensures Text.Contains(c, "comprar")
  {
    assert !Text.Contains(c, AddProductWords[2]);
    assert "adicionar carrinho"[..9] == "adicionar";
    Text.ContainsAt("adicionar carrinho", "adicionar", 0);
    if Text.Contains(c, "adicionar carrinho") {
      ContainsTrans(c, "adicionar carrinho", "adicionar");
      assert false;
    }
  }

  /** "adicionar carrinho" registers a product. */
  lemma DispatchAdicionarCarrinho(c: string)
    requires c == "adicionar carrinho"
    ensures Dispatch(Some(c)) == AddProduct
  {
    assert c[..9] == "adicionar";
    Text.ContainsAt(c, "adicionar", 0);
    assert Text.Contains(c, AddProductWords[2]);
  }

  /** None of three keywords occurs. */
  lemma NoneOf3(c: string, a: string, b: string, d: string)
    requires !Text.Contains(c, a) && !Text.Contains(c, b) && !Text.Contains(c, d)
    ensures !ContainsAny(c, [a, b, d])
  {
    assert [d][1..] == [];
    assert !ContainsAny(c, [d]);
    assert [b, d][1..] == [d];
    assert !ContainsAny(c, [b, d]);
    assert [a, b, d][1..] == [b, d];
  }

  /** Neither of two keywords occurs. */
  lemma NoneOf2(c: string, a: string, b: string)
    requires !Text.Contains(c, a) && !Text.Contains(c, b)
    ensures !ContainsAny(c, [a, b])
  {
    assert [b][1..] == [];
    assert !ContainsAny(c, [b]);
    assert [a, b][1..] == [b];
  }

  /** "quero ver meu carrinho" lists the products: "ver" is tested before "carrinho". */
  lemma DispatchVerMeuCarrinho(c: string)
    requires c == "quero ver meu carrinho"
    ensures Dispatch(Some(c)) == ListProducts
  {
    Text.NotContains(c, "cadastrar", 2);
    Text.NotContains(c, "cadastro", 2);
    Text.NotContains(c, "adicionar", 1);
    NoneOf3(c, "cadastrar", "cadastro", "adicionar");
    assert c[6..9] == "ver";
    Text.ContainsAt(c, "ver", 6);
    assert Text.Contains(c, ListWords[2]);
  }

  /** "comprar arroz" adds to the cart: none of the earlier keywords occurs in it. */
  lemma DispatchComprarArroz(c: string)
    requires c == "comprar arroz"
    ensures Dispatch(Some(c)) == AddToCart
  {
    ComprarArrozFamilies(c);
    DispatchCartAdd(c);
  }

  /** The keywords of the first four families are absent from "comprar arroz", "comprar" is present. */
  lemma ComprarArrozFamilies(c: string)
    requires c == "comprar arroz"
    ensures !ContainsAny(c, AddProductWords) && !ContainsAny(c, ListWords)
    ensures !ContainsAny(c, UpdateWords) && !ContainsAny(c, RemoveWords)
    ensures ContainsAny(c, CartAddWords)
  {
    ComprarArrozNoCatalogWord(c);
    ComprarArrozNoEditWord(c);
    assert c[0..7] == "comprar";
    Text.ContainsAt(c, "comprar", 0);
    assert Text.Contains(c, CartAddWords[0]);
  }

  lemma ComprarArrozNoCatalogWord(c: string)
    requires c == "comprar arroz"
    ensures !ContainsAny(c, AddProductWords) && !ContainsAny(c, ListWords)
  {
    Text.NotContains(c, "cadastrar", 2);
    Text.NotContains(c, "cadastro", 2);
    Text.NotContains(c, "adicionar", 1);
    NoneOf3(c, "cadastrar", "cadastro", "adicionar");
    Text.NotContains(c, "listar", 0);
    Text.NotContains(c, "mostrar", 2);
    Text.NotContains(c, "ver", 0);
    NoneOf3(c, "listar", "mostrar", "ver");
  }

  lemma ComprarArrozNoEditWord(c: string)
    requires c == "comprar arroz"
    ensures !ContainsAny(c, UpdateWords) && !ContainsAny(c, RemoveWords)
  {
    Text.NotContains(c, "atualizar", 1);
    Text.NotContains(c, "alterar", 1);
    Text.NotContains(c, "mudar", 1);
    NoneOf3(c, "atualizar", "alterar", "mudar");
    Text.NotContains(c, "remover", 1);
    Text.NotContains(c, "excluir", 0);
    Text.NotContains(c, "deletar", 0);
    NoneOf3(c, "remover", "excluir", "deletar");
  }

  /** A command reaches the cart-add family exactly when it has a cart-add keyword and none of the four families before. */
  lemma DispatchCartAdd(c: string)
    requires c != ""
    ensures Dispatch(Some(c)) == AddToCart <==>
      !ContainsAny(c, AddProductWords) && !ContainsAny(c, ListWords)
      && !ContainsAny(c, UpdateWords) && !ContainsAny(c, RemoveWords)
      && ContainsAny(c, CartAddWords)
  {
  }

  /** "sair" ends the command loop. */
  lemma DispatchSair(c: string)
    requires c == "sair"
    ensures Dispatch(Some(c)) == Logout && !Continues(Dispatch(Some(c)))
  {
    Text.NotContains(c, "cadastrar", 0);
    Text.NotContains(c, "cadastro", 0);
    Text.NotContains(c, "adicionar", 1);
    NoneOf3(c, "cadastrar", "cadastro", "adicionar");
    Text.NotContains(c, "listar", 0);
    Text.NotContains(c, "mostrar", 0);
    Text.NotContains(c, "ver", 0);
    NoneOf3(c, "listar", "mostrar", "ver");
    Text.NotContains(c, "atualizar", 1);
    Text.NotContains(c, "alterar", 1);
    Text.NotContains(c, "mudar", 0);
    NoneOf3(c, "atualizar", "alterar", "mudar");
    Text.NotContains(c, "remover", 1);
    Text.NotContains(c, "excluir", 0);
    Text.NotContains(c, "deletar", 0);
    NoneOf3(c, "remover", "excluir", "deletar");
    Text.NotContains(c, "comprar", 0);
    Text.NotContains(c, "adicionar carrinho", 1);
    NoneOf2(c, "comprar", "adicionar carrinho");
    Text.NotContains(c, "carrinho", 0);
    Text.NotContains(c, "meu carrinho", 0);
    NoneOf2(c, "carrinho", "meu carrinho");
    Text.NotContains(c, "finalizar", 0);
    Text.NotContains(c, "concluir", 0);
    Text.NotContains(c, "checkout", 0);
    NoneOf3(c, "finalizar", "concluir", "checkout");
    Text.ContainsAt(c, "sair", 0);
    assert Text.Contains(c, LogoutWords[0]);
  }

  /** What `start_system` does with a menu answer. */
  datatype MenuChoice = NoAnswer | Register | Login | Exit | NotRecognized

  const RegisterWords := ["cadastrar", "registrar", "novo"]
  const LoginWords := ["login", "entrar", "acessar"]
  const ExitWords := ["sair", "terminar", "fechar"]

  /** `start_system`'s dispatch of one answer; the interactive loop around it is not modelled. */
  function StartChoice(command: Option<string>): (m: MenuChoice)
    ensures m == NoAnswer <==> command.None? || command.value == ""
    ensures m == Register <==> command.Some? && ContainsAny(command.value, RegisterWords)
    ensures m == Login <==> command.Some? && !ContainsAny(command.value, RegisterWords) && ContainsAny(command.value, LoginWords)
    ensures m == Exit <==> (command.Some? && !ContainsAny(command.value, RegisterWords)
                            && !ContainsAny(command.value, LoginWords) && ContainsAny(command.value, ExitWords))
    ensures m == NotRecognized <==> (command.Some? && command.value != "" && !ContainsAny(command.value, RegisterWords)
                                     && !ContainsAny(command.value, LoginWords) && !ContainsAny(command.value, ExitWords))
  {
    if command.None? || command.value == "" then NoAnswer
    else
      var c := command.value;
      if ContainsAny(c, RegisterWords) then Register
      else if ContainsAny(c, LoginWords) then Login
      else if ContainsAny(c, ExitWords) then Exit
      else NotRecognized
  }

  /** Registration is tested first: "novo login" registers. */
  lemma StartNovoLogin(c: string)
    requires c == "novo login"
    ensures StartChoice(Some(c)) == Register
  {
    assert c[..4] == "novo";
    Text.ContainsAt(c, "novo", 0);
    assert Text.Contains(c, RegisterWords[2]);
  }

  /** "sair" on the menu leaves the system. */
  lemma StartSair(c: string)
    requires c == "sair"
    ensures StartChoice(Some(c)) == Exit
  {
    Text.NotContains(c, "cadastrar", 0);
    Text.NotContains(c, "registrar", 1);
    Text.NotContains(c, "novo", 0);
    NoneOf3(c, "cadastrar", "registrar", "novo");
    Text.NotContains(c, "login", 0);
    Text.NotContains(c, "entrar", 1);
    Text.NotContains(c, "acessar", 1);
    NoneOf3(c, "login", "entrar", "acessar");
    Text.ContainsAt(c, "sair", 0);
    assert Text.Contains(c, ExitWords[0]);
  }
}
