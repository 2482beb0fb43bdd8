# Voice supermarket: a Dafny model of its domain layer

The repository is a supermarket run by voice. It keeps a product catalog, a
per-user cart, a sale ledger and a user registry, and it implements these four
times with different rules:

- **`modules/` (`ShoppingCart` on `ProductManager` and `DatabaseManager`).**
  One JSON store is loaded and saved whole. Adding to the cart merges with an
  existing line. Checkout validates every line, then debits the stock line by
  line through a stock update that refuses to go negative, then records a sale.
- **`api.py`.** In-memory lists behind HTTP routes. Product and user names are
  unique up to case. Adding to the cart always appends a line. Checkout records
  a sale without touching stock.
- **`main.py` (`VoiceSupermarketSystem`).** It has three parts:
  - a keyword dispatcher that tests families of words in a fixed order by
    substring containment;
  - parsers for Portuguese number words ("vinte e cinco reais");
  - a third cart whose checkout debits stock with no validation.
- **`backend/app.py`.** A session table over one `VoiceSupermarketSystem`.
  A registration session lasts until the voice is enrolled. A login session
  carries a cart and lasts until logout.

## How the model is built

- **Modules.**
  - `Domain` holds the shared records (`Product`, `CartLine`, `User`, `Sale`,
    `Data`) and the store file (`StoreFile`: missing, unreadable, or present
    with data).
  - `Text` models Python's `lower`, `in`, `split`, `strip` and `replace`.
  - `Database`, `ProductManagement` and `Shopping` model `modules/`.
  - `Api` models `api.py`.
  - `Spoken` and `Commands` model the pure parts of `main.py`.
  - `VoiceSystem` models the rest of `main.py`.
  - `Backend` models `backend/app.py`.
- **Classes.**
  - Code that updates objects in place is a class whose fields the methods
    reassign: `DatabaseManager`, `ProductManager`, `ShoppingCart`,
    `MemoryStore` (the module-level lists of `api.py`),
    `VoiceSupermarketSystem` and `Server` (the session table of
    `backend/app.py`).
  - Every method is specified against pure functions of the old state:
    `Merged`, `Removed`, `DebitAll`, `CheckoutOutcome`, `RemovedItem`,
    `DebitLines`, `PriceValue`, `QuantityValue`, `Dispatch` and others.
  - The lemmas about those functions state what the source promises.
- **Values.**
  - Prices are integer cents, so 5.99 is 599. Quantities are unbounded
    integers; the source never rejects negative ones.
  - Text is `seq<char>`. `Text.Lower` folds ASCII and Latin-1 capitals, which
    covers the product names in use ("feijão", "açúcar").
- **Oracles.** Speech, audio and library parsing are parameters:
  - a heard answer is an `Option<string>`;
  - `float(...)` and `int(...)` are an `Option<int>` that is None when they raise;
  - a successful voice enrolment is a `bool`;
  - a voice check is a `Probe`: recording failed, no features, no model, or a
    log-likelihood score.
- **Two behaviours of the code worth noting:**
  - "quero ver meu carrinho" contains "ver", so it lists products rather
    than showing the cart;
  - the voice threshold is strict: a score of exactly -50 is rejected.

## Model

| member | source | states |
|---|---|---|
| Domain.Load | modules/database.py:19-25 | Loading a file that is not present with data gives empty tables. |
| Domain.LoadSaved | modules/database.py:21-25 | A saved store loads back unchanged; a missing or undecodable file loads as empty tables. |
| Domain.FindIndex | modules/product_manager.py:30-33 | The index of the first product equal to the query up to case, or None exactly when no product matches. |
| Domain.Find | modules/product_manager.py:27-33 | Some exactly when a product matches up to case, and then it is the product at the first match. |
| Domain.FindAppended | modules/product_manager.py:11-17 | After an append, a query finds what it found before, or else the new product when its name matches. |
| Domain.Updated | modules/product_manager.py:41-44 | The id and name are kept; the price and stock change only where a new value is given. |
| Domain.WithoutName | modules/product_manager.py:56 | Removing by name never lengthens the catalog. |
| Domain.WithoutNameMembers | modules/product_manager.py:56 | A product survives the removal exactly when it was present and does not match the name up to case. |
| Domain.WithoutNameConcat | modules/product_manager.py:56 | The filter works through the list piecewise, so kept products stay in their order. |
| Domain.WithoutNameShrinks | modules/product_manager.py:54-61 | The catalog gets shorter exactly when some product matched, which is when `remove_product` answers True. |
| Domain.StockUpdate | modules/product_manager.py:63-77 | A stock update that is accepted keeps the catalog's length. |
| Domain.StockUpdateEffect | modules/product_manager.py:67-75 | An accepted update sets the first match's stock to old stock plus the change, keeps it non-negative, leaves every other product alone, and keeps all stocks non-negative. |
| Domain.StockUpdateRefused | modules/product_manager.py:67-77 | An update is refused exactly when no product matches or the first match's new stock would be negative. |
| Domain.SubtotalSumConcat | modules/shopping_cart.py:48-50 | The total of the subtotals adds up over concatenated carts. |
| Domain.SubtotalSumUpdate | modules/shopping_cart.py:42-43 | Replacing one line changes the total by the difference of the two subtotals. |
| Domain.SubtotalSumRemove | modules/shopping_cart.py:39 | Dropping one line lowers the total by its subtotal. |
| Domain.SubtotalSumExact | modules/shopping_cart.py:48-50 | When every subtotal is price times quantity, the total is the cart's worth. |
| Domain.HasUser | modules/database.py:46-49 | True exactly when some user has exactly this name. |
| Database.Initialized | modules/database.py:9-17 | A missing store becomes one with empty tables; an existing one is left alone. |
| Database.InitializedIdempotent | modules/database.py:9-17 | Initializing twice is initializing once; afterwards a store exists, and loading gives what it gave before. |
| Database.DatabaseManager.constructor | modules/database.py:5-7 | A manager initializes its store on creation. |
| Database.DatabaseManager.InitializeDatabase | modules/database.py:9-17 | The store is replaced by its initialized form. |
| Database.DatabaseManager.LoadData | modules/database.py:19-25 | The stored tables when the file is present with data; empty tables when it is missing or cannot be decoded. |
| Database.DatabaseManager.SaveData | modules/database.py:27-30 | The store holds exactly the saved data. |
| Database.DatabaseManager.UserExists | modules/database.py:46-49 | True exactly when some stored user has exactly this name (case-sensitive). |
| Database.DatabaseManager.AddUser | modules/database.py:32-44 | Succeeds exactly when the name is not yet taken. It then appends one user with the given access level (default "usuario") and afterwards the user exists; a refusal writes nothing. |
| Database.HasUserAppend | modules/database.py:39-49 | After appending a user, a name exists exactly when it existed before or is the appended one. |
| ProductManagement.ProductManager.constructor | modules/product_manager.py:4-5 | The manager works on the given store and initializes it. |
| ProductManagement.ProductManager.ListProducts | modules/product_manager.py:22-25 | The stored product table, in stored order; empty when the store is missing or cannot be decoded. |
| ProductManagement.ProductManager.AddProduct | modules/product_manager.py:7-20 | Always succeeds. It appends one product with id equal to the old count plus one and no duplicate check; nothing else changes. |
| ProductManagement.ProductManager.FindProduct | modules/product_manager.py:27-33 | The loop returns the first product equal to the name up to case, or None exactly when there is none. |
| ProductManagement.ProductManager.UpdateProduct | modules/product_manager.py:35-49 | Succeeds exactly when some product matches. Only the first match changes, and only in the given fields; with no match nothing is written. |
| ProductManagement.ProductManager.RemoveProduct | modules/product_manager.py:51-61 | Succeeds exactly when some product matches. It then saves the catalog without every match, in order; otherwise nothing is written. |
| ProductManagement.ProductManager.UpdateStock | modules/product_manager.py:63-77 | Succeeds exactly when the pure stock update is accepted, and then saves its result; a refusal writes nothing. |
| Shopping.FirstLine | modules/shopping_cart.py:20-21 | The first line whose name equals the product name exactly, or None exactly when there is none. |
| Shopping.MergedEffect | modules/shopping_cart.py:20-30 | A name already in the cart grows that one line's quantity and leaves its subtotal as it was. Otherwise exactly one line is appended, with the price snapshotted and subtotal price times quantity. |
| Shopping.MergeKeepsStaleSubtotal | modules/shopping_cart.py:20-23 | After a merge the cart total can fall short: arroz 1 then 2 totals 599 cents for 1797 cents' worth. |
| Shopping.Removed | modules/shopping_cart.py:34-46 | Removal succeeds exactly when some line has exactly this name. |
| Shopping.RemovedTotal | modules/shopping_cart.py:36-44 | Removal keeps subtotals exact. The total drops by the removed line's subtotal, or by unit price times the removed quantity. |
| Shopping.RemovedLine | modules/shopping_cart.py:39 | Popping a line keeps the other lines' subtotals exact. |
| Shopping.ReducedLine | modules/shopping_cart.py:42-43 | Decrementing a line recomputes its subtotal as unit price times the new quantity. |
| Shopping.FirstUncovered | modules/shopping_cart.py:65-68 | The first line that validation rejects (no product, or stock below the line's quantity), or None exactly when every line passes. |
| Shopping.DebitAll | modules/shopping_cart.py:70-73 | Debiting line by line keeps the catalog's length. |
| Shopping.DebitAllKeepsStocked | modules/shopping_cart.py:70-73 | Debiting never leaves a negative stock. |
| Shopping.CheckoutRejectsBeforeDebit | modules/shopping_cart.py:65-68 | A non-empty cart is rejected at validation exactly when some line fails its stock check. |
| Shopping.CheckoutCanDecrementPartially | modules/shopping_cart.py:65-73 | As written, checkout of "arroz" and "ARROZ" (2 each, stock 3) passes validation. The second debit is refused, and the first one stays saved. |
| Shopping.ShoppingCart.constructor | modules/shopping_cart.py:5-9 | A new cart is empty and belongs to the user; its store is initialized. |
| Shopping.ShoppingCart.AddToCart | modules/shopping_cart.py:11-32 | Refused, with the cart unchanged, for a name with no match up to case, or a quantity above the current stock. Otherwise the cart becomes the merge of the old cart with the line. |
| Shopping.ShoppingCart.RemoveFromCart | modules/shopping_cart.py:34-46 | Reports not-in-cart exactly when no line has the name, and then changes nothing. Otherwise it removes the first such line or decrements it, as the pure removal says. |
| Shopping.ShoppingCart.GetCartTotal | modules/shopping_cart.py:48-50 | The total is the sum of the stored subtotals over every line, and so the cart's worth (price times quantity) when the subtotals are exact. |
| Shopping.ShoppingCart.ListCartItems | modules/shopping_cart.py:52-54 | The cart's own lines, in order, with no copy or merge. |
| Shopping.ShoppingCart.ClearCart | modules/shopping_cart.py:56-58 | The cart is empty. |
| Shopping.ShoppingCart.Validate | modules/shopping_cart.py:65-68 | The validation loop finds the first line that fails, or none. |
| Shopping.ShoppingCart.DebitCart | modules/shopping_cart.py:70-73 | The debit loop saves the debits up to the first refusal and reports the refused product. |
| Shopping.ShoppingCart.Checkout | modules/shopping_cart.py:60-88 | As written: an empty cart or a failed validation changes nothing. A refused debit keeps the earlier debits. On success one sale with the next id and the cart total is appended and the cart is emptied. |
| Shopping.ShoppingCart.CheckoutAllOrNothing | modules/shopping_cart.py:60-88 | Corrected: the same outcomes, but any failure leaves store and cart unchanged; non-negative stocks stay non-negative. |
| Shopping.CatalogPresent | modules/shopping_cart.py:66 | A catalog that contains a product comes from a store that exists. |
| Shopping.DebitAllStops | modules/shopping_cart.py:71-73 | The first refused debit ends the debiting with the earlier debits kept. |
| Text.LowerChar | modules/product_manager.py:31 | The result is never a capital. A capital moves 32 code points down to its small letter; every other character is kept. |
| Text.Lower | modules/product_manager.py:31 | Lower-casing keeps the length, and each position holds the lower-cased character of the same position. |
| Text.FirstIgnoreCase | api.py:53 | The first name equal to the query up to case, or None exactly when there is none. |
| Text.FirstIgnoreCaseAppend | api.py:162-166 | After an append, a search finds what it found before, or the new name when that is the first match. |
| Text.ContainsAt | main.py:294 | A sub-string placed at some position is `in` the text. |
| Text.ContainsHasChars | main.py:294 | Every character of a contained sub-string occurs in the text. |
| Text.NotContains | main.py:294 | A sub-string with a character missing from the text, or longer than it, is not `in` it. |
| Text.ContainsTooLong | main.py:294 | A sub-string longer than the text is not in it. |
| Text.WordLength | main.py:367 | The run of non-space characters at the start of the text ends at a space or the end. |
| Text.Words | main.py:367 | `split()` yields only non-empty words without spaces. |
| Text.WordsJoin | main.py:367 | The words laid end to end are exactly the text with its spaces deleted, so no character is lost, reordered or invented. |
| Text.WordsOfWordThen | main.py:367 | A word followed by a space or the end of the text is the first piece of the split, and the rest is the split of what follows. |
| Text.WordsSkipSpace | main.py:367 | A leading space contributes nothing to the split. |
| Text.WordsOfPadded | main.py:367 | A single word between spaces splits to just that word. |
| Text.WordLengthOf | main.py:367 | A word followed by a space has its own length as its run. |
| Text.WordsOfSpaces | main.py:387 | A text of spaces splits to nothing. |
| Text.StripStart | backend/app.py:184 | `lstrip` removes a prefix made only of spaces and leaves no leading space. |
| Text.StripEnd | backend/app.py:184 | `rstrip` removes a suffix made only of spaces and leaves no trailing space. |
| Text.RemoveAll | backend/app.py:184 | `replace(pat, '')` never lengthens the text; it returns the text unchanged when the pattern does not occur, and shortens it by at least the pattern's length when it does. |
| Api.FindProduct | api.py:52-53 | The first product equal to the name up to case, or None exactly when there is none. |
| Api.DistinctAppend | api.py:82-86 | Appending a name with no match up to case keeps the names distinct up to case. |
| Api.DistinctRemove | api.py:102-106 | Deleting one name keeps the names distinct. |
| Api.DeleteFirstRemovesName | api.py:102-106 | With distinct names, deleting the first match leaves no product matching the name. |
| Api.RemovedItem | api.py:124-132 | Removal succeeds exactly when some item matches up to case. |
| Api.RemovedItemEffect | api.py:124-132 | Only the first match changes. It is dropped when no quantity is given or the quantity covers the line, and decremented otherwise; the other items are kept in order. |
| Api.CartValueConcat | api.py:148 | The worth of the cart adds up over concatenated carts. |
| Api.DropItemValue | api.py:128 | Dropping an item lowers the worth by price times its quantity. |
| Api.ReduceItemValue | api.py:130 | Decrementing an item by q lowers the worth by price times q. |
| Api.RemovedItemValue | api.py:124-132 | Removal lowers the worth of the cart by exactly the removed price times quantity. |
| Api.MemoryStore.constructor | api.py:20-23 | The store starts with no products, users, sales or carts. |
| Api.MemoryStore.ListarProdutos | api.py:69-71 | The product list itself, in order, and every listed product is found again by its name. |
| Api.MemoryStore.BuscarProduto | api.py:73-78 | Found exactly when some product matches up to case, and then it is the first match; otherwise a 404 not-found error. |
| Api.MemoryStore.CriarProduto | api.py:80-86 | Rejected exactly when the name matches an existing product up to case. Otherwise exactly one product is appended; names stay distinct. |
| Api.MemoryStore.AtualizarProduto | api.py:88-97 | Not found exactly when no product matches. Otherwise only the first match changes, and only in the fields given. |
| Api.MemoryStore.DeletarProduto | api.py:99-106 | Not found exactly when no product matches. Otherwise exactly the first match is removed, and the others are kept in order. |
| Api.MemoryStore.GetCart | api.py:55-58 | A user's first access creates an empty cart; later accesses return the same cart. |
| Api.MemoryStore.AdicionarCarrinho | api.py:110-120 | Not found for a missing product, refused when the stock is below the quantity. Otherwise one line is appended at the current price with no merging. Stock is never touched. |
| Api.MemoryStore.RemoverCarrinho | api.py:122-132 | Not in cart exactly when no line matches up to case. Otherwise the cart becomes the result of the pure removal; an unknown user is left with an empty cart. |
| Api.MemoryStore.VerCarrinho | api.py:134-136 | The user's cart, created empty on first access. |
| Api.MemoryStore.LimparCarrinho | api.py:138-141 | The user's cart is empty. |
| Api.MemoryStore.FinalizarCompra | api.py:143-151 | An empty cart is an error. Otherwise one sale holding the items, with total the sum of price times quantity, is appended. Either way the cart ends empty, and stock is untouched. |
| Api.MemoryStore.CriarUsuario | api.py:160-166 | Rejected exactly when the name matches a user up to case. Otherwise exactly one user is appended, with access level defaulting to "usuario". |
| Api.MemoryStore.ListarUsuarios | api.py:156-158 | The user list itself, in order. |
| Api.MemoryStore.ListarVendas | api.py:168-170 | The sales list itself, in order. |
| Spoken.QuantityWordsArePriceWords | main.py:356-361 | The quantity table is the price table cut at fifty. |
| Spoken.WordSumConcat | main.py:367-372 | Before any currency word, the sum of number words adds up piecewise. |
| Spoken.WordSumStopsAtCurrency | main.py:369-372 | Words after the first "reais"/"real" never count. |
| Spoken.WordSumSkips | main.py:367-372 | A word that is neither a number nor a currency word is ignored. |
| Spoken.WordSumExamples | main.py:367-374 | "vinte e cinco reais" is 25, "dois reais e cinquenta centavos" is 2, and "muito barato" is 0. |
| Spoken.PriceFallbackPositive | main.py:367-374 | When `float` fails, the price is positive and a whole number of reais; no number word gives 5.00. |
| Spoken.PriceOfCem | main.py:367-374 | "cem" is 100.00. |
| Spoken.ParsePrice | main.py:354-374 | The accumulating loop computes the specified price, positive on the fallback path. |
| Spoken.FirstQuantityWord | main.py:387-390 | The first quantity word left to right, or None exactly when there is none. |
| Spoken.QuantityFallbackRange | main.py:384-391 | When `int` fails, the quantity is between 1 and 50, and 1 when no number word is heard. |
| Spoken.FirstQuantityWordWins | main.py:387-390 | Only the first quantity word counts. |
| Spoken.ParseQuantity | main.py:376-391 | The early-return scan computes the specified quantity, between 1 and 50 on the fallback path. |
| Commands.FirstFamily | main.py:294-313 | The first keyword family of the table with a keyword inside the command, or None exactly when there is none. |
| Commands.Dispatch | main.py:289-313 | The command is treated as absent exactly when it is None or empty. |
| Commands.DispatchIsFirstFamily | main.py:294-313 | The if/elif chain picks the first family in the fixed order whose keyword occurs, and otherwise reports an unrecognised command. |
| Commands.ContainsTrans | main.py:296 | A text containing a word contains every sub-string of that word. |
| Commands.ContainsWitness | main.py:294 | A contained sub-string sits at some position of the text. |
| Commands.RemoverNeverRemoves | main.py:294-301 | Any command containing "remover" registers or lists products and never removes: "ver" is tested first. |
| Commands.CartAddNeedsComprar | main.py:302-303 | Adding to the cart needs "comprar": "adicionar carrinho" is taken by the registration family at line 294. |
| Commands.DispatchAdicionarCarrinho | main.py:294-303 | "adicionar carrinho" registers a product. |
| Commands.DispatchVerMeuCarrinho | main.py:296-305 | "quero ver meu carrinho" lists products. |
| Commands.DispatchComprarArroz | main.py:302-303 | "comprar arroz" adds to the cart. |
| Commands.DispatchCartAdd | main.py:294-303 | A command adds to the cart exactly when no earlier family matches and "comprar" or "adicionar carrinho" occurs. |
| Commands.DispatchSair | main.py:308-310 | "sair" logs out, and the handler returns False. |
| Commands.StartChoice | main.py:548-569 | No answer exactly for None or empty. Registration exactly when a registration word occurs; login exactly when no registration word occurs and a login word does; exit exactly when neither occurs and an exit word does; not recognised exactly for a non-empty answer with none of the three. |
| Commands.StartNovoLogin | main.py:560-561 | "novo login" registers, since the registration words are tested first. |
| Commands.StartSair | main.py:565-567 | "sair" on the menu leaves. |
| VoiceSystem.Seeded | main.py:48-62 | A missing store is seeded with five products; an existing one is left alone. |
| VoiceSystem.SeedCatalogWellFormed | main.py:52-58 | The seed products carry ids 1 to 5 in order and non-negative stock. |
| VoiceSystem.VerifyVoiceThreshold | main.py:193-215 | A score of exactly -50 is rejected, and acceptance is monotone in the score. |
| VoiceSystem.FirstExact | main.py:514-515 | The first product whose name equals the line's name exactly, or None exactly when there is none. |
| VoiceSystem.DebitLinesOnlyStock | main.py:513-517 | Checkout's debits change only stocks: ids, names, prices and order are kept. |
| VoiceSystem.StockSumConcat | main.py:513-517 | The total stock adds up over concatenated catalogs. |
| VoiceSystem.StockSumUpdate | main.py:516 | Debiting one product by n lowers the total stock by n. |
| VoiceSystem.FirstExactSameButStock | main.py:514-515 | Stock changes never change which product a name finds. |
| VoiceSystem.DebitLinesStock | main.py:513-517 | When every line names a product, checkout lowers the total stock by exactly the total quantity in the cart. |
| VoiceSystem.DebitLastLine | main.py:514-516 | Each further line lowers the total stock by its own quantity. |
| VoiceSystem.CheckoutVoiceCanGoNegative | main.py:475-517 | Two adds of one unit against a stock of one both pass, and checkout leaves -1 in stock. |
| VoiceSystem.CatalogNameFindsSameProduct | main.py:480-515 | A line stored under the catalog's name is debited from the product that was found for it. |
| VoiceSystem.FirstWithId | main.py:430-435 | The first product carrying the id, or None exactly when there is none. |
| VoiceSystem.SetMatched | main.py:406-441 | Corrected update: the product found by name, and only it, gets the new price and stock. |
| VoiceSystem.SetByIdIsSetMatched | main.py:430-435 | With distinct ids, the update by id is the intended update of the found product. |
| VoiceSystem.UpdateByIdHitsWrongProduct | main.py:339-451 | From the five seed products, removing "arroz" and then adding "sal" gives "sal" id 5, the id of "óleo". Updating "sal" then rewrites "óleo" and leaves "sal" as it was. |
| VoiceSystem.VoiceSupermarketSystem.constructor | main.py:19-46 | A new system has a seeded store, an empty cart and no current user. |
| VoiceSystem.VoiceSupermarketSystem.InitializeDatabase | main.py:48-62 | The store is replaced by its seeded form; the cart and user are kept. |
| VoiceSystem.VoiceSupermarketSystem.LoadData | main.py:64-70 | The stored tables when the file is present with data; empty tables when it is missing or cannot be decoded. |
| VoiceSystem.VoiceSupermarketSystem.SaveData | main.py:72-75 | The store holds exactly the saved data. |
| VoiceSystem.VoiceSupermarketSystem.UserExists | main.py:229-232 | True exactly when some stored user has exactly this name. |
| VoiceSystem.VoiceSupermarketSystem.FindProduct | main.py:281-287 | Some exactly when a stored product matches up to case, and then it is the first matching stored product. |
| VoiceSystem.VoiceSupermarketSystem.AddUser | main.py:234-241 | Appends the user with no duplicate check, and afterwards the user exists. |
| VoiceSystem.VoiceSupermarketSystem.RegisterUser | main.py:243-259 | Needs a heard name that is not taken and a successful enrolment; only then is the user stored. |
| VoiceSystem.VoiceSupermarketSystem.AuthenticateUser | main.py:261-279 | Succeeds exactly for a heard, existing name whose voice probe is accepted, and then that user is the current one. |
| VoiceSystem.VoiceSupermarketSystem.AddProductVoice | main.py:320-352 | Three heard answers append one product with the parsed price and quantity and id equal to the old count plus one; otherwise nothing is written. |
| VoiceSystem.VoiceSupermarketSystem.UpdateProductVoice | main.py:406-441 | As written: when the product is found and both answers are heard, the first product carrying the found product's id is rewritten. |
| VoiceSystem.VoiceSupermarketSystem.UpdateMatchedProductVoice | main.py:406-441 | Corrected: the found product itself is rewritten, under the same conditions. |
| VoiceSystem.VoiceSupermarketSystem.RemoveProductVoice | main.py:443-454 | With a heard name, every product matching it up to case is dropped and the store is written even when none was. |
| VoiceSystem.VoiceSupermarketSystem.AddToCartVoice | main.py:456-489 | Refused when the quantity exceeds stock. Otherwise one line is appended under the catalog's name and price with an exact subtotal, never merged; the line debits the product that was found. |
| VoiceSystem.VoiceSupermarketSystem.CheckoutVoice | main.py:504-533 | Nothing happens on an empty cart. Otherwise the nested loops debit every line with no stock check, one sale with the next id and the sum of the subtotals is recorded, and the cart is emptied. |
| VoiceSystem.VoiceSupermarketSystem.HandleVoiceCommand | main.py:289-313 | Returns False exactly for the logout family. Each dispatched action leaves the state its own method promises (`ProductAdded`, `MatchedProductUpdated`, `ProductsRemoved`, `CartLineAdded`, `CheckedOut`). Absent, listing, viewing, logout and unrecognised commands change nothing, and no command changes the users. |
| VoiceSystem.VoiceSupermarketSystem.StartStep | main.py:548-569 | The menu stops exactly on the exit choice. The register choice leaves what `register_user` promises (`UserRegistered`), the login choice what `authenticate_user` promises (`UserAuthenticated`). Only registration writes the store, and only login changes the current user. |
| Backend.PurchaseNameOfComprar | backend/app.py:184-185 | "comprar" alone names no product, so nothing is added. |
| Backend.PurchaseNameOfComprarArroz | backend/app.py:184 | "comprar arroz" names "arroz". |
| Backend.Server.constructor | backend/app.py:16-19 | One voice system on a seeded store and no sessions. |
| Backend.Server.RegisterUser | backend/app.py:30-61 | A missing name or an existing user fails with no session created. Otherwise a registration session at step 1 replaces any session of that name. |
| Backend.Server.RegisterVoiceSample | backend/app.py:63-91 | Needs a registration session. A successful enrolment stores the user and deletes the session; a failed one keeps it. Under the server invariant, success happens only for a name not yet stored. |
| Backend.Server.LoginUserAsWritten | backend/app.py:93-127 | As written: every call fails, and at best with the arity error of line 108, because `authenticate_user` takes no argument. |
| Backend.Server.LoginUser | backend/app.py:93-127 | Corrected: succeeds exactly for an existing user whose voice is accepted. Success creates a login session with an empty cart; failure creates nothing. |
| Backend.Server.GetProducts | backend/app.py:129-142 | The stored products. |
| Backend.Server.ProcessVoiceCommand | backend/app.py:144-197 | See the notes below this table. |
| Backend.Server.AttachExtra | backend/app.py:171-194 | After the handler: products for "listar", else the session cart for "carrinho", else for "comprar" with a non-empty name one line at 5.99 in a login session's cart, or the `KeyError` failure for a registration session. Any other command leaves the sessions unchanged with no extra data. The continue flag is passed on. |
| Backend.Server.GetCart | backend/app.py:199-216 | Found exactly for a session; a registration session has an empty cart. |
| Backend.Server.Checkout | backend/app.py:218-245 | Fails with no session or an empty cart. Otherwise the cart is reset and the count is its number of lines. While no session is a login session, every checkout fails. |
| Backend.Server.Logout | backend/app.py:247-263 | Deletes the session if any, and always succeeds. |
| Backend.HasUserExtends | backend/app.py:79 | Adding a user changes no other name's existence. |

`Backend.Server.ProcessVoiceCommand`:

- It rejects a caller with no session (of either kind) and an empty command,
  leaving the voice system's store and cart untouched.
- It runs the voice system's handler and passes on its result. The voice
  system is left as the handler promises for the dispatched action
  (`VoiceSystem.VoiceSupermarketSystem.CommandEffect`), and its users and
  current user are unchanged.
- Then, in this order (`Backend.Server.AttachExtra`):
  - "listar" attaches the products;
  - "carrinho" attaches the session's cart;
  - "comprar" with a non-empty product name appends one line at 5.99, or
    fails with `KeyError` for a registration session, leaving the sessions
    unchanged.
- No other case changes the sessions.

The session-changing methods of `Backend.Server` (`RegisterUser`,
`RegisterVoiceSample`, `LoginUser`, `ProcessVoiceCommand`, `Checkout`,
`Logout`) also preserve `Valid()`: a login session belongs to a stored user,
and a registration session to a name not yet stored.

## Left out

- Speech and audio are parameters, not modelled: text-to-speech, microphone
  recording, speech recognition, MFCC extraction and the Gaussian-mixture
  model (`modules/voice_auth.py`, `register_voice`, `extract_voice_features`,
  `record_audio`, the `listen_*` methods, `speak`). The model takes heard text,
  the enrolment result and the voice score as inputs.
- `float(...)` and `int(...)` are oracle inputs, and float rounding of prices
  and totals is replaced by integer cents.
- JSON encoding and file I/O are left out; the store is one value that is loaded
  and replaced whole.
- `datetime.now()` timestamps on users and sales, and `sleep`, are left out.
- The interactive `while True` loops of `voice_command_loop` and `start_system`
  are left out; one command or menu answer is modelled per call. After a
  successful login, `start_system` enters the command loop; that loop is not
  modelled.
- `list_products_voice` and `view_cart_voice` only speak, so they are modelled
  as doing nothing.
- HTTP status handling beyond the status code and message of each error
  (FastAPI, Flask, CORS, pydantic validation, the health routes) is left out.
  Sales in `api.py` carry no id, and neither does `Venda`.
- Concurrency is left out; the source has none.
- Text.LowerChar: folds only ASCII and Latin-1 capitals, not all of Unicode's
  case mappings.
- Text.Lower: folds only ASCII and Latin-1 capitals, through `Text.LowerChar`,
  not all of Unicode's case mappings.
- VoiceSystem.VoiceSupermarketSystem.HandleVoiceCommand: the update command
  runs the corrected `UpdateMatchedProductVoice`, which rewrites the product
  found by name, instead of the by-id `update_product_voice` that main.py:298-299
  calls. The as-written update is `UpdateProductVoice`, and the Findings table
  records where the two differ.
- Backend.Server.LoginUser: takes the name's voice probe as input instead of
  listening for a name, because the call it corrects passes the name.

## Findings

| source | as written | input that shows it | evidently intended | confidence | as-written member | corrected member |
|---|---|---|---|---|---|---|
| modules/shopping_cart.py:65-73 | Validation checks each line against the stock alone, then debits line by line and returns on the first refused debit with the earlier debits already saved. | Stock arroz=3, cart lines "arroz" x2 and "ARROZ" x2: both pass validation, the first debit leaves 1, and the second is refused. | Checkout either completes or changes nothing. | not executed | Shopping.CheckoutCanDecrementPartially | Shopping.ShoppingCart.CheckoutAllOrNothing |
| backend/app.py:108 | Calls `authenticate_user(username)`, but main.py:261 declares it with no parameter, so the call raises `TypeError`; the handler at lines 126-127 reports it. | Any registered user logging in. | The named user's voice is checked. On success a login session is created. | not executed | Backend.Server.LoginUserAsWritten | Backend.Server.LoginUser |
| main.py:430-435 | The update finds the product by name, then writes into the first product with the same id. Ids are `len + 1` at insertion (line 339), so they repeat after a removal (line 451). | The five seed products, remove "arroz", add "sal" (id 5), then update "sal": "óleo" (also id 5) is rewritten. | The product found by name is updated. | not executed | VoiceSystem.UpdateByIdHitsWrongProduct | VoiceSystem.VoiceSupermarketSystem.UpdateMatchedProductVoice |

`HandleVoiceCommand` uses the corrected
`VoiceSystem.VoiceSupermarketSystem.UpdateMatchedProductVoice`. Its pure
counterpart is `VoiceSystem.SetMatched`, and `VoiceSystem.SetByIdIsSetMatched`
proves that the two updates agree when ids are distinct.
