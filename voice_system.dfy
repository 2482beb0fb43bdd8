/**
 * `VoiceSupermarketSystem` of `main.py`: the voice front end with its own copy
 * of the store code. The JSON file, the in-memory cart and the logged-in user
 * are its fields. Everything the microphone would supply (spoken answers, the
 * library conversions of them, the voice-model outcome) arrives as parameters.
 */
module VoiceSystem {
  import opened Wrappers
  import opened Domain
  import Text
  import Spoken
  import Commands

  /** The catalog `initialize_database` writes into a new store (prices in cents). */
  const SeedProducts: seq<Product> := [
    Product(1, "arroz", 599, 50), Product(2, "feijão", 450, 30), Product(3, "açúcar", 375, 40),
    Product(4, "café", 899, 25), Product(5, "óleo", 425, 35)]

  const SeedData := Data(SeedProducts, [], [])

  /** `initialize_database`: the seeded store is written only when no file exists. */
  function Seeded(f: StoreFile): (g: StoreFile)
    ensures f.Missing? ==> g == Present(SeedData)
    ensures !f.Missing? ==> g == f
  {
    if f.Missing? then Present(SeedData) else f
  }

  /** The seed has ids 1 to 5 in order and no negative stock, so a fresh store gives `len + 1` as the next free id. */
  lemma SeedCatalogWellFormed()
    ensures forall i :: 0 <= i < |SeedProducts| ==> SeedProducts[i].id == i + 1
    ensures AllStocked(SeedProducts)
  {
  }

  // ------------------------------------------------------------- voice check

  /** What `verify_voice` got to: a failed recording, no features, no stored model, or the model's score. */
  datatype Probe = RecordingFailed | NoFeatures | NoModel | Scored(score: real)

  /** `score > -50`. */
  const Threshold: real := -50.0

  /** `verify_voice`: only a scored probe above the threshold is accepted. */
  predicate VerifyVoice(p: Probe) {
    p.Scored? && p.score > Threshold
  }

  /** The threshold itself is rejected, and acceptance is monotone in the score. */
  lemma VerifyVoiceThreshold(s: real, t: real)
    requires s <= t
    ensures !VerifyVoice(Scored(Threshold))
    ensures VerifyVoice(Scored(s)) ==> VerifyVoice(Scored(t))
  {
  }

  // ------------------------------------------------------------ spoken input

  /**
   * The answers heard to the prompts of one action, None when nothing was
   * understood: the product name, the price and the quantity; and what
   * `float(...)` and `int(...)` give on the price and the quantity answers
   * (None when they raise `ValueError`).
   */
  datatype Replies = Replies(
    nome: Option<string>, preco: Option<string>, quantidade: Option<string>,
    asFloat: Option<int>, asInt: Option<int>)

  /** The answer passes `if not answer`. */
  predicate Heard(answer: Option<string>) {
    answer.Some? && answer.value != ""
  }

  datatype RegisterOutcome = NoUsername | UserAlreadyExists | VoiceRegistrationFailed | Registered

  datatype CartOutcome = NotHeard | ProductNotFound | QuantityUnavailable(stock: int) | Added

  // ---------------------------------------------------------- checkout model

  /** Index of the first product whose name is exactly `name` (`produto['nome'] == item['produto']`). */
  function FirstExact(ps: seq<Product>, name: string): (r: Option<nat>)
    ensures r.Some? ==> r.value < |ps| && ps[r.value].nome == name
    ensures r.Some? ==> forall j :: 0 <= j < r.value ==> ps[j].nome != name
    ensures r.None? <==> forall j :: 0 <= j < |ps| ==> ps[j].nome != name
    decreases |ps|
  {
    if |ps| == 0 then None
    else if ps[0].nome == name then Some(0)
    else match FirstExact(ps[1..], name)
      case None => None
      case Some(k) => Some(k + 1)
  }

  /** The line's stock decrement: the first product of exactly its name loses its quantity, unchecked. */
  function DebitLine(ps: seq<Product>, l: CartLine): seq<Product> {
    match FirstExact(ps, l.produto)
    case None => ps
    case Some(j) => ps[j := ps[j].(quantidade := ps[j].quantidade - l.quantidade)]
  }

  /** `checkout_voice`'s nested loops: the lines' decrements applied in cart order. */
  function DebitLines(ps: seq<Product>, lines: seq<CartLine>): seq<Product>
    decreases |lines|
  {
    if |lines| == 0 then ps else DebitLine(DebitLines(ps, lines[..|lines| - 1]), lines[|lines| - 1])
  }

  /** Two catalogs that hold the same products apart from stock. */
  predicate SameButStock(ps: seq<Product>, qs: seq<Product>) {
    |ps| == |qs| && forall k :: 0 <= k < |ps| ==> qs[k] == ps[k].(quantidade := qs[k].quantidade)
  }

  /** Debiting changes stock only: ids, names, prices and order stay. */
  lemma {:induction false} DebitLinesOnlyStock(ps: seq<Product>, lines: seq<CartLine>)
    ensures SameButStock(ps, DebitLines(ps, lines))
    decreases |lines|
  {
    if |lines| > 0 {
      DebitLinesOnlyStock(ps, lines[..|lines| - 1]);
    }
  }

  /** The sum of the stocks. */
  function StockSum(ps: seq<Product>): int
    decreases |ps|
  {
    if |ps| == 0 then 0 else StockSum(ps[..|ps| - 1]) + ps[|ps| - 1].quantidade
  }

  /** The sum of the lines' quantities. */
  function QuantitySum(lines: seq<CartLine>): int
    decreases |lines|
  {
    if |lines| == 0 then 0 else QuantitySum(lines[..|lines| - 1]) + lines[|lines| - 1].quantidade
  }

  lemma {:induction false} StockSumConcat(a: seq<Product>, b: seq<Product>)
    ensures StockSum(a + b) == StockSum(a) + StockSum(b)
    decreases |b|
  {
    if |b| > 0 {
      assert (a + b)[..|a + b| - 1] == a + b[..|b| - 1];
      StockSumConcat(a, b[..|b| - 1]);
    } else {
      assert a + b == a;
    }
  }

  /** Changing one stock by `-n` lowers the sum by `n`. */
  lemma StockSumUpdate(ps: seq<Product>, j: nat, n: int)
    requires j < |ps|
    ensures StockSum(ps[j := ps[j].(quantidade := ps[j].quantidade - n)]) == StockSum(ps) - n
  {
    var p := ps[j].(quantidade := ps[j].quantidade - n);
    var a, b := ps[..j], ps[j + 1..];
    assert ps == a + [ps[j]] + b;
    assert ps[j := p] == a + [p] + b;
    StockSumConcat(a + [ps[j]], b);
    StockSumConcat(a, [ps[j]]);
    StockSumConcat(a + [p], b);
    StockSumConcat(a, [p]);
  }

  /** Stock changes do not move the first exact match. */
  lemma FirstExactSameButStock(ps: seq<Product>, qs: seq<Product>, name: string)
    requires SameButStock(ps, qs)
    ensures FirstExact(qs, name) == FirstExact(ps, name)
  {
    assert forall k :: 0 <= k < |ps| ==> qs[k].nome == ps[k].nome;
  }

  /** When every line names a product, checkout takes exactly the cart's total quantity out of stock. */
  lemma {:induction false} DebitLinesStock(ps: seq<Product>, lines: seq<CartLine>)
    requires forall k :: 0 <= k < |lines| ==> FirstExact(ps, lines[k].produto).Some?
    ensures StockSum(DebitLines(ps, lines)) == StockSum(ps) - QuantitySum(lines)
    decreases |lines|
  {
    if |lines| > 0 {
      var init, l := lines[..|lines| - 1], lines[|lines| - 1];
      assert forall k :: 0 <= k < |init| ==> init[k] == lines[k];
      DebitLinesStock(ps, init);
      var qs := DebitLines(ps, init);
      DebitLinesOnlyStock(ps, init);
      FirstExactSameButStock(ps, qs, l.produto);
      DebitLastLine(qs, l);
      assert DebitLines(ps, lines) == DebitLine(qs, l);
    }
  }

  /** A line's decrement lowers the stock sum by its quantity when its product exists. */
  lemma DebitLastLine(qs: seq<Product>, l: CartLine)
    requires FirstExact(qs, l.produto).Some?
    ensures StockSum(DebitLine(qs, l)) == StockSum(qs) - l.quantidade
  {
    var j := FirstExact(qs, l.produto).value;
    StockSumUpdate(qs, j, l.quantidade);
  }

  /**
   * No stock check anywhere on this path: two separate adds of one unit pass
   * `quantidade > estoque` against a stock of one, and checkout leaves -1.
   */
  lemma CheckoutVoiceCanGoNegative()
    ensures var ps := [Product(1, "arroz", 599, 1)];
      var line := CartLine("arroz", 1, 599, 599);
      && !(line.quantidade > ps[0].quantidade)
      && DebitLines(ps, [line, line]) == [Product(1, "arroz", 599, -1)]
  {
    var ps := [Product(1, "arroz", 599, 1)];
    var line := CartLine("arroz", 1, 599, 599);
    assert [line, line][..1] == [line];
    assert [line][..0] == [];
    assert DebitLines(ps, [line]) == DebitLine(ps, line) == [Product(1, "arroz", 599, 0)];
    assert DebitLines(ps, [line, line]) == DebitLine([Product(1, "arroz", 599, 0)], line);
  }

  /**
   * A line added with the catalog's own name for the product found up to case is
   * debited from that same product: no earlier product can have exactly that name.
   */
  lemma CatalogNameFindsSameProduct(ps: seq<Product>, name: string)
    requires FindIndex(ps, name).Some?
    ensures FirstExact(ps, ps[FindIndex(ps, name).value].nome) == FindIndex(ps, name)
  {
    var i := FindIndex(ps, name).value;
    forall j | 0 <= j < i
      ensures ps[j].nome != ps[i].nome
    {
      if ps[j].nome == ps[i].nome {
        assert Named(ps[j], name);
      }
    }
  }

  // ------------------------------------------------------- update by id

  /** Index of the first product with this id (`if p['id'] == produto['id']`). */
  function FirstWithId(ps: seq<Product>, id: int): (r: Option<nat>)
    ensures r.Some? ==> r.value < |ps| && ps[r.value].id == id
    ensures r.Some? ==> forall j :: 0 <= j < r.value ==> ps[j].id != id
    ensures r.None? <==> forall j :: 0 <= j < |ps| ==> ps[j].id != id
    decreases |ps|
  {
    if |ps| == 0 then None
    else if ps[0].id == id then Some(0)
    else match FirstWithId(ps[1..], id)
      case None => None
      case Some(k) => Some(k + 1)
  }

  /** What `update_product_voice` writes: the first product carrying `id` gets the new price and stock. */
  function SetById(ps: seq<Product>, id: int, preco: int, quantidade: int): seq<Product> {
    match FirstWithId(ps, id)
    case None => ps
    case Some(k) => ps[k := ps[k].(preco := preco, quantidade := quantidade)]
  }

  /** The update `update_product_voice` evidently intends: the product found by name gets the new price and stock. */
  function SetMatched(ps: seq<Product>, name: string, preco: int, quantidade: int): (qs: seq<Product>)
    ensures |qs| == |ps|
    ensures FindIndex(ps, name).Some? ==> var i := FindIndex(ps, name).value;
      qs[i] == ps[i].(preco := preco, quantidade := quantidade)
      && forall j :: 0 <= j < |ps| && j != i ==> qs[j] == ps[j]
    ensures FindIndex(ps, name).None? ==> qs == ps
  {
    match FindIndex(ps, name)
    case None => ps
    case Some(i) => ps[i := ps[i].(preco := preco, quantidade := quantidade)]
  }

  /** No two products share an id. */
  predicate DistinctIds(ps: seq<Product>) {
    forall i, j :: 0 <= i < j < |ps| ==> ps[i].id != ps[j].id
  }

  /** With distinct ids the update by id is the intended update of the matched product. */
  lemma SetByIdIsSetMatched(ps: seq<Product>, name: string, preco: int, quantidade: int)
    requires DistinctIds(ps) && FindIndex(ps, name).Some?
    ensures SetById(ps, ps[FindIndex(ps, name).value].id, preco, quantidade) == SetMatched(ps, name, preco, quantidade)
  {
    var i := FindIndex(ps, name).value;
    assert FirstWithId(ps, ps[i].id) == Some(i);
  }

  /**
   * Ids are `len + 1` at insertion, so they collide after a removal: from the
   * five seed products, removing "arroz" and adding "sal" gives "sal" the id 5
   * of "óleo", and updating "sal" then rewrites "óleo" while "sal" keeps its old
   * price.
   */
  lemma UpdateByIdHitsWrongProduct()
    ensures var ps := Appended(WithoutName(SeedProducts, "arroz"), "sal", 200, 10);
      && ps == SeedProducts[1..] + [Product(5, "sal", 200, 10)]
      && ps[4].id == ps[3].id == 5
      && FindIndex(ps, "sal") == Some(4)
      && SetById(ps, ps[4].id, 300, 5)[3] == Product(5, "óleo", 300, 5)
      && SetById(ps, ps[4].id, 300, 5)[4] == Product(5, "sal", 200, 10)
  {
    SeedWithoutArroz();
    var ps := SeedProducts[1..] + [Product(5, "sal", 200, 10)];
    SalIsLast(ps);
    assert ps[0].id == 2 && ps[1].id == 3 && ps[2].id == 4 && ps[3].id == 5;
    assert FirstWithId(ps, 5) == Some(3);
  }

  /** Removing "arroz" from the seed drops exactly its first product. */
  lemma SeedWithoutArroz()
    ensures WithoutName(SeedProducts, "arroz") == SeedProducts[1..]
  {
    var rest := SeedProducts[1..];
    assert SeedProducts == [SeedProducts[0]] + rest;
    WithoutNameConcat([SeedProducts[0]], rest, "arroz");
    assert Named(SeedProducts[0], "arroz");
    assert WithoutName([SeedProducts[0]], "arroz") == [];
    forall i | 0 <= i < |rest|
      ensures !Named(rest[i], "arroz")
    {
      NotNamedByLength(rest[i], "arroz");
    }
    KeptWhenNoneNamed(rest, "arroz");
  }

  lemma SalIsLast(ps: seq<Product>)
    requires ps == SeedProducts[1..] + [Product(5, "sal", 200, 10)]
    ensures FindIndex(ps, "sal") == Some(4)
  {
    forall j | 0 <= j < 4
      ensures !Named(ps[j], "sal")
    {
      NotNamedByLength(ps[j], "sal");
    }
    assert Named(ps[4], "sal");
  }

  /** Names of different lengths never match up to case, since lower-casing keeps the length. */
  lemma NotNamedByLength(p: Product, name: string)
    requires |p.nome| != |name|
    ensures !Named(p, name)
  {
    assert |Text.Lower(p.nome)| != |Text.Lower(name)|;
  }

  /** Filtering out a name nothing answers to keeps the list as it is. */
  lemma {:induction false} KeptWhenNoneNamed(ps: seq<Product>, name: string)
    requires forall i :: 0 <= i < |ps| ==> !Named(ps[i], name)
    ensures WithoutName(ps, name) == ps
    decreases |ps|
  {
    if |ps| > 0 {
      KeptWhenNoneNamed(ps[1..], name);
      assert ps == [ps[0]] + ps[1..];
    }
  }

  // ------------------------------------------------------------------- class

  class VoiceSupermarketSystem {
    var file: StoreFile
    var carrinho: seq<CartLine>
    var currentUser: Option<string>

    /** `VoiceSupermarketSystem()` on a store in state `f`: no user, an empty cart, a seeded store when none exists. */
    constructor (f: StoreFile)
      ensures file == Seeded(f) && carrinho == [] && currentUser == None
    {
      file := f;
      carrinho := [];
      currentUser := None;
      new;
      InitializeDatabase();
    }

    method InitializeDatabase()
      modifies this
      ensures file == Seeded(old(file)) && carrinho == old(carrinho) && currentUser == old(currentUser)
    {
      if file.Missing? {
        SaveData(SeedData);
      }
    }

    /** `load_data`: the file's data, or empty tables when it is missing or cannot be decoded. */
    function LoadData(): (d: Data)
      reads this
      ensures file.Present? ==> d == file.data
      ensures !file.Present? ==> d == EmptyData
    {
      Load(file)
    }

    method SaveData(d: Data)
      modifies this
      ensures file == Present(d) && carrinho == old(carrinho) && currentUser == old(currentUser)
    {
      file := Present(d);
    }

    /** `user_exists`: some stored user has exactly this name. */
    function UserExists(username: string): (b: bool)
      reads this
      ensures b <==> exists u :: u in LoadData().usuarios && u.nome == username
    {
      HasUser(LoadData().usuarios, username)
    }

    /** `find_product`: the first product named `name` up to case. */
    function FindProduct(name: string): (r: Option<Product>)
      reads this
      ensures r.Some? <==> exists p :: p in LoadData().produtos && Named(p, name)
      ensures r.Some? ==> r.value in LoadData().produtos && Named(r.value, name)
      ensures r.Some? ==> exists i :: (0 <= i < |LoadData().produtos| && LoadData().produtos[i] == r.value
        && forall j :: 0 <= j < i ==> !Named(LoadData().produtos[j], name))
    {
      Find(LoadData().produtos, name)
    }

    /** `add_user`: appends the user with no duplicate check (the timestamp is not modelled). */
    method AddUser(username: string)
      modifies this
      ensures var d := old(LoadData()); file == Present(d.(usuarios := d.usuarios + [User(username, None)]))
      ensures UserExists(username)
      ensures carrinho == old(carrinho) && currentUser == old(currentUser)
    {
      var data := LoadData();
      SaveData(data.(usuarios := data.usuarios + [User(username, None)]));
      assert LoadData().usuarios[|data.usuarios|].nome == username;
    }

    /** What `register_user` leaves behind: the user stored when the name was heard, free and enrolled; nothing written otherwise. */
    twostate predicate UserRegistered(username: Option<string>, voiceRegistered: bool)
      reads this
    {
      && (if Heard(username) && !old(UserExists(username.value)) && voiceRegistered then
            var d := old(LoadData());
            file == Present(d.(usuarios := d.usuarios + [User(username.value, None)]))
          else file == old(file))
      && carrinho == old(carrinho) && currentUser == old(currentUser)
    }

    /**
     * `register_user`: needs a heard name that is not taken, then a successful
     * voice enrolment (`voiceRegistered`, what `register_voice` returned); only
     * then is the user stored.
     */
    method RegisterUser(username: Option<string>, voiceRegistered: bool) returns (r: RegisterOutcome)
      modifies this
      ensures r == if !Heard(username) then NoUsername
                   else if old(UserExists(username.value)) then UserAlreadyExists
                   else if !voiceRegistered then VoiceRegistrationFailed
                   else Registered
      ensures UserRegistered(username, voiceRegistered)
      ensures r == Registered ==> UserExists(username.value)
    {
      if !Heard(username) {
        return NoUsername;
      }
      if UserExists(username.value) {
        return UserAlreadyExists;
      }
      if voiceRegistered {
        AddUser(username.value);
        return Registered;
      }
      return VoiceRegistrationFailed;
    }

    /** What `authenticate_user` leaves behind: the heard, stored, voice-accepted name as current user; otherwise no change. */
    twostate predicate UserAuthenticated(username: Option<string>, probe: Probe)
      reads this
    {
      && currentUser == (if Heard(username) && old(UserExists(username.value)) && VerifyVoice(probe)
                         then Some(username.value) else old(currentUser))
      && file == old(file) && carrinho == old(carrinho)
    }

    /** `authenticate_user`: a heard, existing name whose voice probe is accepted becomes the current user. */
    method AuthenticateUser(username: Option<string>, probe: Probe) returns (ok: bool)
      modifies this
      ensures ok <==> Heard(username) && UserExists(username.value) && VerifyVoice(probe)
      ensures UserAuthenticated(username, probe)
    {
      if !Heard(username) || !UserExists(username.value) {
        return false;
      }
      if VerifyVoice(probe) {
        currentUser := Some(username.value);
        return true;
      }
      return false;
    }

    /**
     * What `add_product_voice` leaves behind: with all three answers heard, one
     * product appended with the parsed price and quantity and id `len + 1`;
     * otherwise nothing written.
     */
    twostate predicate ProductAdded(r: Replies)
      reads this
    {
      && (if Heard(r.nome) && Heard(r.preco) && Heard(r.quantidade) then
            var d := old(LoadData());
            file == Present(d.(produtos := Appended(d.produtos, r.nome.value,
              Spoken.PriceValue(r.preco.value, r.asFloat), Spoken.QuantityValue(r.quantidade.value, r.asInt))))
          else file == old(file))
      && carrinho == old(carrinho) && currentUser == old(currentUser)
    }

    /** `add_product_voice`: three heard answers append one product with id `len + 1`; otherwise nothing is written. */
    method AddProductVoice(r: Replies) returns (added: bool)
      modifies this
      ensures added <==> Heard(r.nome) && Heard(r.preco) && Heard(r.quantidade)
      ensures ProductAdded(r)
    {
      if !Heard(r.nome) || !Heard(r.preco) || !Heard(r.quantidade) {
        return false;
      }
      var preco := Spoken.ParsePrice(r.preco.value, r.asFloat);
      var quantidade := Spoken.ParseQuantity(r.quantidade.value, r.asInt);
      var data := LoadData();
      var productId := |data.produtos| + 1;
      SaveData(data.(produtos := data.produtos + [Product(productId, r.nome.value, preco, quantidade)]));
      return true;
    }

    /** The name was heard, a product answers to it, and both new values were heard. */
    twostate predicate UpdateAnswered(r: Replies)
      reads this
    {
      Heard(r.nome) && Find(old(LoadData()).produtos, r.nome.value).Some? && Heard(r.preco) && Heard(r.quantidade)
    }

    /** What `update_product_voice` as written leaves behind: the first product carrying the found product's id rewritten. */
    twostate predicate ProductUpdatedById(r: Replies)
      reads this
    {
      && (if UpdateAnswered(r) then
            var d := old(LoadData()); var p := Find(d.produtos, r.nome.value).value;
            file == Present(d.(produtos := SetById(d.produtos, p.id,
              Spoken.PriceValue(r.preco.value, r.asFloat), Spoken.QuantityValue(r.quantidade.value, r.asInt))))
          else file == old(file))
      && carrinho == old(carrinho) && currentUser == old(currentUser)
    }

    /** What the intended `update_product_voice` leaves behind: the found product itself rewritten. */
    twostate predicate MatchedProductUpdated(r: Replies)
      reads this
    {
      && (if UpdateAnswered(r) then
            var d := old(LoadData());
            file == Present(d.(produtos := SetMatched(d.produtos, r.nome.value,
              Spoken.PriceValue(r.preco.value, r.asFloat), Spoken.QuantityValue(r.quantidade.value, r.asInt))))
          else file == old(file))
      && carrinho == old(carrinho) && currentUser == old(currentUser)
    }

    /**
     * `update_product_voice` as written: finds the product by name, then writes
     * the new price and stock into the first product carrying the found
     * product's id, which is another product when ids collide.
     */
    method UpdateProductVoice(r: Replies) returns (updated: bool)
      modifies this
      ensures var found := Find(old(LoadData()).produtos, r.nome.GetOr(""));
        updated <==> Heard(r.nome) && found.Some? && Heard(r.preco) && Heard(r.quantidade)
      ensures ProductUpdatedById(r)
    {
      if !Heard(r.nome) {
        return false;
      }
      var produto := FindProduct(r.nome.value);
      if produto.None? || !Heard(r.preco) || !Heard(r.quantidade) {
        return false;
      }
      var novoPreco := Spoken.ParsePrice(r.preco.value, r.asFloat);
      var novaQuantidade := Spoken.ParseQuantity(r.quantidade.value, r.asInt);
      var data := LoadData();
      var produtos := data.produtos;
      var i := 0;
      while i < |produtos|
        invariant 0 <= i <= |produtos|
        invariant forall j :: 0 <= j < i ==> produtos[j].id != produto.value.id
      {
        if produtos[i].id == produto.value.id {
          assert FirstWithId(produtos, produto.value.id) == Some(i);
          produtos := produtos[i := produtos[i].(preco := novoPreco, quantidade := novaQuantidade)];
          break;
        }
        i := i + 1;
      }
      SaveData(data.(produtos := produtos));
      return true;
    }

    /** `update_product_voice` as intended: the product found by name, and only it, gets the new price and stock. */
    method UpdateMatchedProductVoice(r: Replies) returns (updated: bool)
      modifies this
      ensures var found := Find(old(LoadData()).produtos, r.nome.GetOr(""));
        updated <==> Heard(r.nome) && found.Some? && Heard(r.preco) && Heard(r.quantidade)
      ensures MatchedProductUpdated(r)
    {
      if !Heard(r.nome) {
        return false;
      }
      var data := LoadData();
      var found := FindIndex(data.produtos, r.nome.value);
      if found.None? || !Heard(r.preco) || !Heard(r.quantidade) {
        return false;
      }
      var novoPreco := Spoken.ParsePrice(r.preco.value, r.asFloat);
      var novaQuantidade := Spoken.ParseQuantity(r.quantidade.value, r.asInt);
      var i := found.value;
      SaveData(data.(produtos := data.produtos[i := data.produtos[i].(preco := novoPreco, quantidade := novaQuantidade)]));
      return true;
    }

    /** What `remove_product_voice` leaves behind: with a heard name, the catalog without every product answering to it. */
    twostate predicate ProductsRemoved(r: Replies)
      reads this
    {
      && (if Heard(r.nome) then
            var d := old(LoadData()); file == Present(d.(produtos := WithoutName(d.produtos, r.nome.value)))
          else file == old(file))
      && carrinho == old(carrinho) && currentUser == old(currentUser)
    }

    /**
     * `remove_product_voice`: with a heard name, every product answering to it up
     * to case is dropped and the store is written back even if none was.
     */
    method RemoveProductVoice(r: Replies) returns (written: bool)
      modifies this
      ensures written <==> Heard(r.nome)
      ensures ProductsRemoved(r)
    {
      if !Heard(r.nome) {
        return false;
      }
      var data := LoadData();
      SaveData(data.(produtos := WithoutName(data.produtos, r.nome.value)));
      return true;
    }

    /**
     * What `add_to_cart_voice` leaves behind: when the name and quantity were
     * heard, the product found and the quantity within its stock, one line under
     * the catalog's name and price with subtotal price times quantity appended;
     * otherwise the cart as it was. The store is never written.
     */
    twostate predicate CartLineAdded(r: Replies)
      reads this
    {
      var found := Find(old(LoadData()).produtos, r.nome.GetOr(""));
      && (if Heard(r.nome) && found.Some? && Heard(r.quantidade)
             && Spoken.QuantityValue(r.quantidade.value, r.asInt) <= found.value.quantidade then
            var p, q := found.value, Spoken.QuantityValue(r.quantidade.value, r.asInt);
            carrinho == old(carrinho) + [CartLine(p.nome, q, p.preco, p.preco * q)]
          else carrinho == old(carrinho))
      && file == old(file) && currentUser == old(currentUser)
    }

    /**
     * `add_to_cart_voice`: refused when `quantidade > estoque`; otherwise one line
     * is appended under the catalog's name, at the catalog's price, with an exact
     * subtotal, and never merged. The store is not touched.
     */
    method AddToCartVoice(r: Replies) returns (o: CartOutcome)
      modifies this
      ensures var found := Find(LoadData().produtos, r.nome.GetOr(""));
        o == if !Heard(r.nome) then NotHeard
             else if found.None? then ProductNotFound
             else if !Heard(r.quantidade) then NotHeard
             else if Spoken.QuantityValue(r.quantidade.value, r.asInt) > found.value.quantidade then QuantityUnavailable(found.value.quantidade)
             else Added
      ensures CartLineAdded(r)
      ensures o == Added ==> FirstExact(LoadData().produtos, carrinho[|carrinho| - 1].produto) == FindIndex(LoadData().produtos, r.nome.value)
      ensures old(SubtotalsExact(carrinho)) ==> SubtotalsExact(carrinho)
    {
      if !Heard(r.nome) {
        return NotHeard;
      }
      var produto := FindProduct(r.nome.value);
      if produto.None? {
        return ProductNotFound;
      }
      if !Heard(r.quantidade) {
        return NotHeard;
      }
      var quantidade := Spoken.ParseQuantity(r.quantidade.value, r.asInt);
      if quantidade > produto.value.quantidade {
        return QuantityUnavailable(produto.value.quantidade);
      }
      CatalogNameFindsSameProduct(LoadData().produtos, r.nome.value);
      carrinho := carrinho + [CartLine(produto.value.nome, quantidade, produto.value.preco, produto.value.preco * quantidade)];
      return Added;
    }

    /**
     * What `checkout_voice` leaves behind: nothing changed for an empty cart;
     * otherwise every line debited with no stock check, one sale with the next id
     * and the sum of the subtotals recorded, and the cart emptied.
     */
    twostate predicate CheckedOut()
      reads this
    {
      && (if old(carrinho) == [] then file == old(file) && carrinho == old(carrinho)
          else
            var d := old(LoadData()); var lines := old(carrinho);
            && file == Present(d.(produtos := DebitLines(d.produtos, lines),
                                  vendas := d.vendas + [Sale(|d.vendas| + 1, old(currentUser), lines, SubtotalSum(lines))]))
            && carrinho == [])
      && currentUser == old(currentUser)
    }

    /**
     * `checkout_voice`: nothing happens on an empty cart; otherwise every line's
     * quantity comes off the first product of exactly its name, without any stock
     * check, one sale with id `len(vendas) + 1` and the sum of the subtotals is
     * recorded, and the cart is emptied.
     */
    method CheckoutVoice() returns (done: bool)
      modifies this
      ensures done <==> old(carrinho) != []
      ensures CheckedOut()
    {
      if carrinho == [] {
        return false;
      }
      var data := LoadData();
      var total := SubtotalSum(carrinho);
      var produtos := data.produtos;
      var i := 0;
      while i < |carrinho|
        invariant 0 <= i <= |carrinho|
        invariant produtos == DebitLines(data.produtos, carrinho[..i])
      {
        var item := carrinho[i];
        assert carrinho[..i + 1][..i] == carrinho[..i];
        var j := 0;
        while j < |produtos|
          invariant 0 <= j <= |produtos|
          invariant forall k :: 0 <= k < j ==> produtos[k].nome != item.produto
        {
          if produtos[j].nome == item.produto {
            assert FirstExact(produtos, item.produto) == Some(j);
            produtos := produtos[j := produtos[j].(quantidade := produtos[j].quantidade - item.quantidade)];
            break;
          }
          j := j + 1;
        }
        i := i + 1;
      }
      assert carrinho[..i] == carrinho;
      var vendaId := |data.vendas| + 1;
      SaveData(data.(produtos := produtos, vendas := data.vendas + [Sale(vendaId, currentUser, carrinho, total)]));
      carrinho := [];
      return true;
    }

    /** What a dispatched voice command leaves behind: the effect its action method promises, the users and current user untouched. */
    twostate predicate CommandEffect(command: Option<string>, r: Replies)
      reads this
    {
      var action := Commands.Dispatch(command);
      var quiet := action in {Commands.NoCommand, Commands.ListProducts, Commands.ViewCart, Commands.Logout, Commands.Unrecognized};
      && (action == Commands.AddProduct ==> ProductAdded(r))
      && (action == Commands.UpdateProduct ==> MatchedProductUpdated(r))
      && (action == Commands.RemoveProduct ==> ProductsRemoved(r))
      && (action == Commands.AddToCart ==> CartLineAdded(r))
      && (action == Commands.Checkout ==> CheckedOut())
      && (quiet ==> file == old(file) && carrinho == old(carrinho))
      && LoadData().usuarios == old(LoadData().usuarios)
      && currentUser == old(currentUser)
    }

    /**
     * `handle_voice_command`: runs the action of the first keyword family found in
     * the command and answers False only for the logout family. Listing and
     * viewing the cart only speak. Updates go through the corrected
     * `UpdateMatchedProductVoice`.
     */
    method HandleVoiceCommand(command: Option<string>, r: Replies) returns (keepGoing: bool)
      modifies this
      ensures keepGoing == Commands.Continues(Commands.Dispatch(command))
      ensures Commands.Dispatch(command) in {Commands.NoCommand, Commands.ListProducts, Commands.ViewCart, Commands.Logout, Commands.Unrecognized}
        ==> file == old(file) && carrinho == old(carrinho)
      ensures Commands.Dispatch(command) == Commands.AddProduct ==> ProductAdded(r)
      ensures Commands.Dispatch(command) == Commands.UpdateProduct ==> MatchedProductUpdated(r)
      ensures Commands.Dispatch(command) == Commands.RemoveProduct ==> ProductsRemoved(r)
      ensures Commands.Dispatch(command) == Commands.AddToCart ==> CartLineAdded(r)
      ensures Commands.Dispatch(command) == Commands.Checkout ==> CheckedOut()
      ensures LoadData().usuarios == old(LoadData().usuarios)
      ensures currentUser == old(currentUser)
    {
      var action := Commands.Dispatch(command);
      match action {
        case AddProduct =>
          var _ := AddProductVoice(r);
        case UpdateProduct =>
          var _ := UpdateMatchedProductVoice(r);
        case RemoveProduct =>
          var _ := RemoveProductVoice(r);
        case AddToCart =>
          var _ := AddToCartVoice(r);
        case Checkout =>
          var _ := CheckoutVoice();
        case Logout =>
          return false;
        case _ =>
      }
      return true;
    }

    /**
     * One menu answer of `start_system`: register, log in (the command loop that
     * follows a login is not modelled), or leave; the result is whether the menu
     * keeps running.
     */
    method StartStep(command: Option<string>, username: Option<string>, voiceRegistered: bool, probe: Probe)
      returns (running: bool)
      modifies this
      ensures running <==> Commands.StartChoice(command) != Commands.Exit
      ensures Commands.StartChoice(command) != Commands.Register ==> file == old(file)
      ensures Commands.StartChoice(command) != Commands.Login ==> currentUser == old(currentUser)
      ensures Commands.StartChoice(command) == Commands.Register ==> UserRegistered(username, voiceRegistered)
      ensures Commands.StartChoice(command) == Commands.Login ==> UserAuthenticated(username, probe)
      ensures carrinho == old(carrinho)
    {
      match Commands.StartChoice(command) {
        case Register =>
          var _ := RegisterUser(username, voiceRegistered);
        case Login =>
          var _ := AuthenticateUser(username, probe);
        case Exit =>
          return false;
        case _ =>
      }
      return true;
    }
  }
}
