/**
 * `modules/product_manager.py`: catalog operations. Each loads the store, edits the
 * product table and saves it back through the shared `DatabaseManager`.
 */
module ProductManagement {
  import opened Wrappers
  import opened Domain
  import Text
  import opened Database

  class ProductManager {
    const db: DatabaseManager

    constructor (db: DatabaseManager)
      modifies db
      ensures this.db == db && db.file == Initialized(old(db.file))
    {
      this.db := db;
      new;
      db.InitializeDatabase();
    }

    /** `add_product`: always succeeds and appends one product whose id is the old product count plus one. */
    method AddProduct(name: string, price: int, quantity: int) returns (ok: bool)
      modifies db
      ensures ok
      ensures var d := old(db.LoadData());
        db.file == Present(d.(produtos := Appended(d.produtos, name, price, quantity)))
    {
      var data := db.LoadData();
      var productId := |data.produtos| + 1;
      db.SaveData(data.(produtos := data.produtos + [Product(productId, name, price, quantity)]));
      return true;
    }

    /** `list_products`. */
    function ListProducts(): (r: seq<Product>)
      reads db
      ensures db.file.Present? ==> r == db.file.data.produtos
      ensures !db.file.Present? ==> r == []
    {
      db.LoadData().produtos
    }

    /** `find_product`: the first product whose name equals `name` up to case, or None. */
    method FindProduct(name: string) returns (r: Option<Product>)
      ensures r.Some? <==> exists p :: p in db.LoadData().produtos && Named(p, name)
      ensures r.Some? ==> r.value == db.LoadData().produtos[FindIndex(db.LoadData().produtos, name).value]
      ensures r == Find(db.LoadData().produtos, name)
    {
      var produtos := db.LoadData().produtos;
      var i := 0;
      while i < |produtos|
        invariant 0 <= i <= |produtos|
        invariant forall j :: 0 <= j < i ==> !Named(produtos[j], name)
      {
        if Text.Lower(produtos[i].nome) == Text.Lower(name) {
          assert produtos[i] in produtos && Named(produtos[i], name);
          return Some(produtos[i]);
        }
        i := i + 1;
      }
      return None;
    }

    /**
     * `update_product`: the first product named `name` up to case gets the fields
     * given as non-None; with no match nothing is written and the result is false.
     */
    method UpdateProduct(name: string, newPrice: Option<int> := None, newQuantity: Option<int> := None)
      returns (ok: bool)
      modifies db
      ensures var ps := old(db.LoadData()).produtos; ok <==> exists p :: p in ps && Named(p, name)
      ensures !ok ==> db.file == old(db.file)
      ensures ok ==> var d := old(db.LoadData()); var i := FindIndex(d.produtos, name).value;
        db.file == Present(d.(produtos := d.produtos[i := Updated(d.produtos[i], newPrice, newQuantity)]))
    {
      var data := db.LoadData();
      var i := 0;
      while i < |data.produtos|
        invariant 0 <= i <= |data.produtos|
        invariant forall j :: 0 <= j < i ==> !Named(data.produtos[j], name)
      {
        var produto := data.produtos[i];
        if Text.Lower(produto.nome) == Text.Lower(name) {
          assert produto in data.produtos && Named(produto, name);
          if newPrice.Some? {
            produto := produto.(preco := newPrice.value);
          }
          if newQuantity.Some? {
            produto := produto.(quantidade := newQuantity.value);
          }
          db.SaveData(data.(produtos := data.produtos[i := produto]));
          return true;
        }
        i := i + 1;
      }
      return false;
    }

    /**
     * `remove_product`: every product named `name` up to case is dropped, the others
     * keep their order; true, and the store written, exactly when something was dropped.
     */
    method RemoveProduct(name: string) returns (ok: bool)
      modifies db
      ensures var ps := old(db.LoadData()).produtos; ok <==> exists p :: p in ps && Named(p, name)
      ensures !ok ==> db.file == old(db.file)
      ensures ok ==> var d := old(db.LoadData()); db.file == Present(d.(produtos := WithoutName(d.produtos, name)))
    {
      var data := db.LoadData();
      var initialCount := |data.produtos|;
      var kept := WithoutName(data.produtos, name);
      WithoutNameShrinks(data.produtos, name);
      if |kept| < initialCount {
        db.SaveData(data.(produtos := kept));
        return true;
      }
      return false;
    }

    /**
     * `update_stock`: the first product named `product_name` up to case gets stock
     * `quantidade + quantity_change`; refused, with nothing written, when that is
     * negative or nothing matches.
     */
    method UpdateStock(productName: string, quantityChange: int) returns (ok: bool)
      modifies db
      ensures var ps := old(db.LoadData()).produtos; ok <==> StockUpdate(ps, productName, quantityChange).Some?
      ensures !ok ==> db.file == old(db.file)
      ensures ok ==> var d := old(db.LoadData());
        db.file == Present(d.(produtos := StockUpdate(d.produtos, productName, quantityChange).value))
    {
      var data := db.LoadData();
      StockUpdateAtFirstMatch(data.produtos, productName, quantityChange);
      var i := 0;
      while i < |data.produtos|
        invariant 0 <= i <= |data.produtos|
        invariant forall j :: 0 <= j < i ==> !Named(data.produtos[j], productName)
      {
        var produto := data.produtos[i];
        if Text.Lower(produto.nome) == Text.Lower(productName) {
          assert FindIndex(data.produtos, productName) == Some(i);
          var newQuantity := produto.quantidade + quantityChange;
          if newQuantity < 0 {
            return false;
          }
          db.SaveData(data.(produtos := data.produtos[i := produto.(quantidade := newQuantity)]));
          return true;
        }
        i := i + 1;
      }
      return false;
    }
  }
}
