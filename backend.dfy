/**
 * `backend/app.py`: the Flask front end over one `VoiceSupermarketSystem`.
 * Its own state is the session table `sessoes_ativas`. A registration session
 * (`cadastro`) lives until the voice enrolment succeeds. A login session
 * (`logado`) carries a cart and lives until logout. Each handler answers with
 * `success` and a message or its data; handlers catch every exception and
 * answer "Erro: " followed by its text.
 */
module Backend {
  import opened Wrappers
  import opened Domain
  import Text
  import Commands
  import VoiceSystem

  /** A session cart line `{produto, quantidade, preco}`. */
  datatype SessionItem = SessionItem(produto: string, quantidade: int, preco: int)

  /**
   * An entry of `sessoes_ativas`. The `amostras` list of a registration
   * session starts empty and is never read or extended, so only `etapa` is kept.
   */
  datatype Session = Cadastro(etapa: int) | Logado(carrinho: seq<SessionItem>)

  /** `session.get('carrinho', [])`: a registration session has no cart. */
  function SessionCart(s: Session): seq<SessionItem> {
    if s.Logado? then s.carrinho else []
  }

  /** A JSON answer: `success: True` with data, or `success: False` with a message. */
  datatype Response<T> = Ok(data: T) | Fail(message: string)

  const UsernameRequired := "Username é obrigatório"
  const UserAlreadyExists := "Usuário já existe"
  const InvalidSession := "Sessão inválida"
  const VoiceRegistrationFailed := "Falha no cadastro da voz"
  const UserNotFound := "Usuário não encontrado"
  const VoiceAuthenticationFailed := "Falha na autenticação por voz"
  const NotAuthenticated := "Usuário não autenticado"
  const EmptyCommand := "Comando vazio"
  const EmptyCart := "Carrinho vazio"

  /** The `TypeError` line 108 raises: `authenticate_user` takes no argument besides `self`. */
  const ArityError := "Erro: VoiceSupermarketSystem.authenticate_user() takes 1 positional argument but 2 were given"

  /** The `KeyError` of `sessoes_ativas[username]['carrinho']` on a registration session. */
  const MissingCartError := "Erro: 'carrinho'"

  /** The example price 5.99 of a line added by "comprar". */
  const ExamplePrice := 599

  /** The field was sent and passes `if not value`. */
  predicate Given(value: Option<string>) {
    value.Some? && value.value != ""
  }

  /** The extra data `process_voice_command` attaches to its answer. */
  datatype Extra =
    | NoExtra
      /** `type: 'products_list'` */
    | ProductsList(produtos: seq<Product>)
      /** `type: 'cart_view'` */
    | CartView(carrinho: seq<SessionItem>)
      /** `type: 'cart_updated'` */
    | CartUpdated(produto: string)

  datatype CommandReply = CommandReply(continues: bool, extra: Extra)

  /** `command_text.replace('comprar', '').strip()`: the product a "comprar" command names. */
  function PurchaseName(command: string): string {
    Text.Strip(Text.RemoveAll(command, "comprar"))
  }

  /** "comprar" alone names nothing, so no line is added for it. */
  lemma PurchaseNameOfComprar(c: string)
    requires c == "comprar"
    ensures PurchaseName(c) == ""
  {
    var pat := "comprar";
    assert |c| == |pat| && c[..|pat|] == pat;
    assert Text.RemoveAll(c, pat) == Text.RemoveAll(c[|pat|..], pat);
    assert c[|pat|..] == [];
  }

  /** "comprar arroz" names "arroz". */
  lemma PurchaseNameOfComprarArroz(c: string)
    requires c == "comprar arroz"
    ensures PurchaseName(c) == "arroz"
  {
    var rest := c[7..];
    assert c[..7] == "comprar" && rest == " arroz";
    assert Text.RemoveAll(c, "comprar") == Text.RemoveAll(rest, "comprar");
    NoComprarIn(rest);
    StripArroz(rest);
  }

  /** Stripping " arroz" drops the one leading space. */
  lemma StripArroz(s: string)
    requires s == " arroz"
    ensures Text.Strip(s) == "arroz"
  {
    assert Text.IsSpace(s[0]) && s[1..] == "arroz";
    assert !Text.IsSpace('a');
    assert Text.StripStart(s) == "arroz";
    assert !Text.IsSpace('z');
  }

  /** " arroz" is too short to hold "comprar" after its first character, so nothing is removed. */
  lemma NoComprarIn(s: string)
    requires s == " arroz"
    ensures Text.RemoveAll(s, "comprar") == s
  {
  }

  class Server {
    const sistemaVoz: VoiceSystem.VoiceSupermarketSystem
    var sessoesAtivas: map<string, Session>

    /**
     * Login sessions belong to stored users and registration sessions to names
     * not yet stored: every handler keeps this, since users are only added.
     */
    predicate Valid()
      reads this, sistemaVoz
    {
      forall u :: u in sessoesAtivas ==> (sessoesAtivas[u].Logado? <==> sistemaVoz.UserExists(u))
    }

    /** The module's start: one voice system on the store `f`, no sessions. */
    constructor (f: StoreFile)
      ensures sistemaVoz.file == VoiceSystem.Seeded(f) && sistemaVoz.carrinho == [] && sistemaVoz.currentUser == None
      ensures sessoesAtivas == map[]
      ensures Valid()
    {
      sistemaVoz := new VoiceSystem.VoiceSupermarketSystem(f);
      sessoesAtivas := map[];
    }

    /**
     * `register_user`: rejects a missing name or an existing user with no
     * session created; otherwise starts a registration session at step 1,
     * replacing any session of that name.
     */
    method RegisterUser(username: Option<string>) returns (r: Response<()>)
      modifies this
      ensures r == if !Given(username) then Fail(UsernameRequired)
                   else if sistemaVoz.UserExists(username.value) then Fail(UserAlreadyExists)
                   else Ok(())
      ensures r.Fail? ==> sessoesAtivas == old(sessoesAtivas)
      ensures r.Ok? ==> sessoesAtivas == old(sessoesAtivas)[username.value := Cadastro(1)]
      ensures old(Valid()) ==> Valid()
    {
      if !Given(username) {
        return Fail(UsernameRequired);
      }
      if sistemaVoz.UserExists(username.value) {
        return Fail(UserAlreadyExists);
      }
      sessoesAtivas := sessoesAtivas[username.value := Cadastro(1)];
      return Ok(());
    }

    /**
     * `register_voice_sample`: needs a registration session; when the enrolment
     * succeeds (`voiceRegistered`, what `register_voice` returned) the user is
     * stored and the session deleted, otherwise the session is kept.
     */
    method RegisterVoiceSample(username: Option<string>, voiceRegistered: bool) returns (r: Response<()>)
      modifies this, sistemaVoz
      ensures var valid := username.Some? && username.value in old(sessoesAtivas) && old(sessoesAtivas)[username.value].Cadastro?;
        r == if !valid then Fail(InvalidSession) else if !voiceRegistered then Fail(VoiceRegistrationFailed) else Ok(())
      ensures r.Fail? ==> sessoesAtivas == old(sessoesAtivas) && sistemaVoz.file == old(sistemaVoz.file)
      ensures r.Ok? ==> var d := old(sistemaVoz.LoadData());
        && sessoesAtivas == old(sessoesAtivas) - {username.value}
        && sistemaVoz.file == Present(d.(usuarios := d.usuarios + [User(username.value, None)]))
        && sistemaVoz.UserExists(username.value)
      ensures old(Valid()) && r.Ok? ==> !old(sistemaVoz.UserExists(username.value))
      ensures sistemaVoz.carrinho == old(sistemaVoz.carrinho) && sistemaVoz.currentUser == old(sistemaVoz.currentUser)
      ensures old(Valid()) ==> Valid()
    {
      if username.None? || username.value !in sessoesAtivas || !sessoesAtivas[username.value].Cadastro? {
        return Fail(InvalidSession);
      }
      if !voiceRegistered {
        return Fail(VoiceRegistrationFailed);
      }
      ghost var before := sistemaVoz.LoadData().usuarios;
      sistemaVoz.AddUser(username.value);
      forall v | v != username.value
        ensures sistemaVoz.UserExists(v) == old(sistemaVoz.UserExists(v))
      {
        HasUserExtends(before, User(username.value, None), v);
      }
      sessoesAtivas := sessoesAtivas - {username.value};
      return Ok(());
    }

    /**
     * `login_user` as written: line 108 passes the name to `authenticate_user`,
     * which takes none, so every call that gets past the two checks raises and
     * is answered as an error; no session is ever created.
     */
    method LoginUserAsWritten(username: Option<string>) returns (r: Response<string>)
      ensures r == if !Given(username) then Fail(UsernameRequired)
                   else if !sistemaVoz.UserExists(username.value) then Fail(UserNotFound)
                   else Fail(ArityError)
      ensures r.Fail?
    {
      if !Given(username) {
        return Fail(UsernameRequired);
      }
      if !sistemaVoz.UserExists(username.value) {
        return Fail(UserNotFound);
      }
      return Fail(ArityError);
    }

    /**
     * `login_user` as intended: the named user's voice is checked, and on success
     * that user becomes the voice system's current user and gets a login session
     * with an empty cart; a failure creates nothing.
     */
    method LoginUser(username: Option<string>, probe: VoiceSystem.Probe) returns (r: Response<string>)
      modifies this, sistemaVoz
      ensures r.Ok? <==> Given(username) && sistemaVoz.UserExists(username.value) && VoiceSystem.VerifyVoice(probe)
      ensures r.Fail? ==> r.message == if !Given(username) then UsernameRequired
                                       else if !sistemaVoz.UserExists(username.value) then UserNotFound
                                       else VoiceAuthenticationFailed
      ensures r.Ok? ==>
        r.data == username.value && sessoesAtivas == old(sessoesAtivas)[username.value := Logado([])]
        && sistemaVoz.currentUser == Some(username.value)
      ensures r.Fail? ==> sessoesAtivas == old(sessoesAtivas) && sistemaVoz.currentUser == old(sistemaVoz.currentUser)
      ensures sistemaVoz.file == old(sistemaVoz.file) && sistemaVoz.carrinho == old(sistemaVoz.carrinho)
      ensures old(Valid()) ==> Valid()
    {
      if !Given(username) {
        return Fail(UsernameRequired);
      }
      if !sistemaVoz.UserExists(username.value) {
        return Fail(UserNotFound);
      }
      var ok := sistemaVoz.AuthenticateUser(username, probe);
      if ok {
        sessoesAtivas := sessoesAtivas[username.value := Logado([])];
        return Ok(username.value);
      }
      return Fail(VoiceAuthenticationFailed);
    }

    /** `get_products`: the stored products, never an error. */
    function GetProducts(): (r: Response<seq<Product>>)
      reads sistemaVoz
      ensures r.Ok? && r.data == sistemaVoz.LoadData().produtos
    {
      Ok(sistemaVoz.LoadData().produtos)
    }

    /**
     * `process_voice_command`: needs a session (of either kind) and a command,
     * runs the voice system's command handler, then attaches products for
     * "listar", else the session cart for "carrinho", else for "comprar" with a
     * non-empty product name one line at the example price; a registration
     * session has no cart to append to, which raises.
     */
    method ProcessVoiceCommand(username: Option<string>, commandText: Option<string>, replies: VoiceSystem.Replies)
      returns (r: Response<CommandReply>)
      modifies this, sistemaVoz
      ensures !Given(username) || username.value !in old(sessoesAtivas) ==>
        r == Fail(NotAuthenticated) && sessoesAtivas == old(sessoesAtivas)
        && sistemaVoz.file == old(sistemaVoz.file) && sistemaVoz.carrinho == old(sistemaVoz.carrinho)
      ensures Given(username) && username.value in old(sessoesAtivas) && !Given(commandText) ==>
        r == Fail(EmptyCommand) && sessoesAtivas == old(sessoesAtivas)
        && sistemaVoz.file == old(sistemaVoz.file) && sistemaVoz.carrinho == old(sistemaVoz.carrinho)
      ensures Given(username) && username.value in old(sessoesAtivas) && Given(commandText) ==>
        var u, c := username.value, commandText.value;
        var buys := !Text.Contains(c, "listar") && !Text.Contains(c, "carrinho") && Text.Contains(c, "comprar") && PurchaseName(c) != "";
        && (r.Ok? ==> r.data.continues == Commands.Continues(Commands.Dispatch(commandText)))
        && (Text.Contains(c, "listar") ==> r.Ok? && r.data.extra == ProductsList(sistemaVoz.LoadData().produtos))
        && (!Text.Contains(c, "listar") && Text.Contains(c, "carrinho") ==> r.Ok? && r.data.extra == CartView(SessionCart(old(sessoesAtivas)[u])))
        && (buys && old(sessoesAtivas)[u].Cadastro? ==> r == Fail(MissingCartError) && sessoesAtivas == old(sessoesAtivas))
        && (buys && old(sessoesAtivas)[u].Logado? ==>
              r.Ok? && r.data.extra == CartUpdated(PurchaseName(c))
              && sessoesAtivas == old(sessoesAtivas)[u := Logado(old(sessoesAtivas)[u].carrinho + [SessionItem(PurchaseName(c), 1, ExamplePrice)])])
        && (!buys ==> sessoesAtivas == old(sessoesAtivas))
        && (!buys && !Text.Contains(c, "listar") && !Text.Contains(c, "carrinho") ==> r.Ok? && r.data.extra == NoExtra)
      ensures Given(username) && username.value in old(sessoesAtivas) && Given(commandText) ==>
        sistemaVoz.CommandEffect(commandText, replies)
      ensures sistemaVoz.LoadData().usuarios == old(sistemaVoz.LoadData().usuarios)
      ensures sistemaVoz.currentUser == old(sistemaVoz.currentUser)
      ensures old(Valid()) ==> Valid()
    {
      if !Given(username) || username.value !in sessoesAtivas {
        return Fail(NotAuthenticated);
      }
      if !Given(commandText) {
        return Fail(EmptyCommand);
      }
      var shouldContinue := sistemaVoz.HandleVoiceCommand(commandText, replies);
      assert sistemaVoz.CommandEffect(commandText, replies);
      assert forall v :: sistemaVoz.UserExists(v) == old(sistemaVoz.UserExists(v));
      r := AttachExtra(username.value, commandText.value, shouldContinue);
    }

    /** Replacing a login session's cart keeps every name's session kind. */
    static lemma SameKinds(m: map<string, Session>, u: string, s: Session)
      requires u in m && m[u].Logado? && s.Logado?
      ensures m[u := s].Keys == m.Keys
      ensures forall v :: v in m ==> (m[u := s][v].Logado? <==> m[v].Logado?)
    {
    }

    /** A command that reaches the purchase branch of `process_voice_command` and names a product. */
    static predicate Buys(c: string) {
      !Text.Contains(c, "listar") && !Text.Contains(c, "carrinho") && Text.Contains(c, "comprar") && PurchaseName(c) != ""
    }

    /**
     * The second half of `process_voice_command`, after the command handler has
     * run: products for "listar", else the session cart for "carrinho", else for
     * "comprar" with a non-empty product name one line at the example price,
     * which raises for a registration session.
     */
    method AttachExtra(u: string, c: string, shouldContinue: bool) returns (r: Response<CommandReply>)
      requires u in sessoesAtivas
      modifies this
      ensures r.Ok? ==> r.data.continues == shouldContinue
      ensures Text.Contains(c, "listar") ==> r.Ok? && r.data.extra == ProductsList(sistemaVoz.LoadData().produtos)
      ensures !Text.Contains(c, "listar") && Text.Contains(c, "carrinho") ==> r.Ok? && r.data.extra == CartView(SessionCart(old(sessoesAtivas)[u]))
      ensures Buys(c) && old(sessoesAtivas)[u].Cadastro? ==> r == Fail(MissingCartError) && sessoesAtivas == old(sessoesAtivas)
      ensures Buys(c) && old(sessoesAtivas)[u].Logado? ==>
        r.Ok? && r.data.extra == CartUpdated(PurchaseName(c))
        && sessoesAtivas == old(sessoesAtivas)[u := Logado(old(sessoesAtivas)[u].carrinho + [SessionItem(PurchaseName(c), 1, ExamplePrice)])]
      ensures !Buys(c) ==> sessoesAtivas == old(sessoesAtivas)
      ensures !Buys(c) && !Text.Contains(c, "listar") && !Text.Contains(c, "carrinho") ==> r.Ok? && r.data.extra == NoExtra
      ensures old(Valid()) ==> Valid()
    {
      if Text.Contains(c, "listar") {
        return Ok(CommandReply(shouldContinue, ProductsList(sistemaVoz.LoadData().produtos)));
      } else if Text.Contains(c, "carrinho") {
        return Ok(CommandReply(shouldContinue, CartView(SessionCart(sessoesAtivas[u]))));
      } else if Text.Contains(c, "comprar") {
        var productName := PurchaseName(c);
        if productName != "" {
          if sessoesAtivas[u].Cadastro? {
            return Fail(MissingCartError);
          }
          var before := sessoesAtivas;
          sessoesAtivas := before[u := Logado(before[u].carrinho + [SessionItem(productName, 1, ExamplePrice)])];
          SameKinds(before, u, sessoesAtivas[u]);
          return Ok(CommandReply(shouldContinue, CartUpdated(productName)));
        }
      }
      return Ok(CommandReply(shouldContinue, NoExtra));
    }

    /** `get_cart`: the session's cart (empty for a registration session), or not authenticated. */
    function GetCart(username: Option<string>): (r: Response<seq<SessionItem>>)
      reads this
      ensures r.Ok? <==> Given(username) && username.value in sessoesAtivas
      ensures r.Ok? ==> r.data == SessionCart(sessoesAtivas[username.value])
      ensures r.Fail? ==> r.message == NotAuthenticated
    {
      if !Given(username) || username.value !in sessoesAtivas then Fail(NotAuthenticated)
      else Ok(SessionCart(sessoesAtivas[username.value]))
    }

    /**
     * `checkout`: not authenticated without a session, "Carrinho vazio" on an
     * empty cart; otherwise the cart is reset and `items_count` is the number of
     * lines. No stock or sale is touched.
     */
    method Checkout(username: Option<string>) returns (r: Response<nat>)
      modifies this
      ensures !Given(username) || username.value !in old(sessoesAtivas) ==> r == Fail(NotAuthenticated)
      ensures Given(username) && username.value in old(sessoesAtivas) ==>
        var cart := SessionCart(old(sessoesAtivas)[username.value]);
        r == if cart == [] then Fail(EmptyCart) else Ok(|cart|)
      ensures r.Fail? ==> sessoesAtivas == old(sessoesAtivas)
      ensures r.Ok? ==> r.data > 0 && sessoesAtivas == old(sessoesAtivas)[username.value := Logado([])]
      ensures (forall v :: v in old(sessoesAtivas) ==> old(sessoesAtivas)[v].Cadastro?) ==> r.Fail?
      ensures old(Valid()) ==> Valid()
    {
      if !Given(username) || username.value !in sessoesAtivas {
        return Fail(NotAuthenticated);
      }
      var carrinho := SessionCart(sessoesAtivas[username.value]);
      if carrinho == [] {
        return Fail(EmptyCart);
      }
      sessoesAtivas := sessoesAtivas[username.value := Logado([])];
      return Ok(|carrinho|);
    }

    /** `logout`: the session, if any, is deleted; the answer is success either way. */
    method Logout(username: Option<string>) returns (r: Response<()>)
      modifies this
      ensures r == Ok(())
      ensures sessoesAtivas == if username.Some? then old(sessoesAtivas) - {username.value} else old(sessoesAtivas)
      ensures username.Some? ==> username.value !in sessoesAtivas
      ensures old(Valid()) ==> Valid()
    {
      if username.Some? && username.value in sessoesAtivas {
        sessoesAtivas := sessoesAtivas - {username.value};
      }
      return Ok(());
    }
  }

  /** Appending a user leaves every other name's `user_exists` as it was. */
  lemma HasUserExtends(us: seq<User>, u: User, name: string)
    requires u.nome != name
    ensures HasUser(us + [u], name) == HasUser(us, name)
  {
    assert (us + [u])[..|us|] == us;
  }
}
