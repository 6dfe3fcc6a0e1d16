/** The six records of stock/models.py as objects whose fields `save` and
    `calculate_total` update in place.

    The record store is modelled only as far as these operations touch it: a
    Stock or Sale holds the persisted rows of its line items in `items` (the
    `stockitem_set` / `saleitem_set` reverse relation), and a line item knows the
    position of its row there (`pk`) once it has been saved. Field-level
    validation that `full_clean` performs is carried by the types: a
    `PositiveIntegerField` is a `nat`, a two-place `DecimalField` an `int` in cents. */
module StockModels {
  import opened TitleCase
  import opened Ledger

  class Brand {
    var name: string

    constructor (name: string)
      ensures this.name == name
    {
      this.name := name;
    }

    /** `Brand.save`: a non-empty name is replaced by its title-cased form, which
        differs from it only in case; saving again would not change it. */
    method Save()
      modifies this
      ensures name == Title(old(name))
      ensures old(name) == [] ==> name == []
      ensures SameUpToCase(old(name), name) && IsTitled(name)
      ensures Title(name) == name
    {
      if name != [] {
        TitleIsTitled(name);
        TitleIdempotent(name);
        name := Title(name);
      }
    }
  }

  class Product {
    var name: string
    var brand: Brand
    var description: string
    var price: int
    var quantity: nat

    constructor (name: string, brand: Brand, description: string, price: int, quantity: nat)
      ensures this.name == name && this.brand == brand && this.description == description
      ensures this.price == price && this.quantity == quantity
    {
      this.name := name;
      this.brand := brand;
      this.description := description;
      this.price := price;
      this.quantity := quantity;
    }

    /** `Product.save`: a non-empty name is replaced by its title-cased form, which
        differs from it only in case; saving again would not change it, and no
        other field changes. */
    method Save()
      modifies this`name
      ensures name == Title(old(name))
      ensures old(name) == [] ==> name == []
      ensures SameUpToCase(old(name), name) && IsTitled(name)
      ensures Title(name) == name
    {
      if name != [] {
        TitleIsTitled(name);
        TitleIdempotent(name);
        name := Title(name);
      }
    }
  }

  class Stock {
    var referenceNo: string
    var stockType: StockType
    var notes: Option<string>
    var totalAmount: int
    var items: seq<Line<Product>>

    constructor (referenceNo: string, stockType: StockType, notes: Option<string>)
      ensures this.referenceNo == referenceNo && this.stockType == stockType && this.notes == notes
      ensures totalAmount == 0 && items == []
    {
      this.referenceNo := referenceNo;
      this.stockType := stockType;
      this.notes := notes;
      totalAmount := 0;
      items := [];
    }

    /** `Stock.calculate_total`: writes the sum of quantity * unit price over the
        document's items into `total_amount`; the items are only read. */
    method CalculateTotal()
      modifies this`totalAmount
      ensures totalAmount == Total(items)
    {
      totalAmount := Sum(items);
    }
  }

  class StockItem {
    const stock: Stock
    const product: Product
    var quantity: nat
    var unitPrice: int
    /** Position of this item's persisted row in `stock.items`; None until saved. */
    var pk: Option<nat>

    constructor (stock: Stock, product: Product, quantity: nat, unitPrice: int)
      ensures this.stock == stock && this.product == product
      ensures this.quantity == quantity && this.unitPrice == unitPrice && pk == None
    {
      this.stock := stock;
      this.product := product;
      this.quantity := quantity;
      this.unitPrice := unitPrice;
      pk := None;
    }

    /** The row `save` writes for this item. */
    function Row(): Line<Product>
      reads this
    {
      Line(product, quantity, unitPrice)
    }

    /** `StockItem.clean`: reads the stock's type and the product's quantity and
        changes nothing. */
    method Clean() returns (err: Option<ValidationError>)
      ensures err == StockItemCheck(stock.stockType, quantity, product.name, product.quantity)
    {
      err := StockItemCheck(stock.stockType, quantity, product.name, product.quantity);
    }

    /** `StockItem.save`: validates first; on an error nothing is stored, otherwise
        the row is inserted (first save) or overwritten (later saves). The
        product, and the stock's total, are left alone. */
    method Save() returns (err: Option<ValidationError>)
      requires pk.Some? ==> pk.value < |stock.items|
      modifies this`pk, stock`items
      ensures pk.Some? ==> pk.value < |stock.items|
      ensures err == StockItemCheck(stock.stockType, quantity, product.name, product.quantity)
      ensures err.Some? ==> stock.items == old(stock.items) && pk == old(pk)
      ensures err.None? && old(pk).None? ==>
        stock.items == old(stock.items) + [Row()] && pk == Some(|old(stock.items)|)
      ensures err.None? && old(pk).Some? ==>
        stock.items == old(stock.items)[old(pk).value := Row()] && pk == old(pk)
      ensures unchanged(product)
    {
      err := Clean();
      if err.None? {
        match pk
        case None =>
          pk := Some(|stock.items|);
          stock.items := stock.items + [Row()];
        case Some(k) =>
          stock.items := stock.items[k := Row()];
      }
    }
  }

  class Sale {
    var invoiceNumber: string
    var customerName: string
    var notes: string
    var totalAmount: int
    var items: seq<Line<Product>>

    constructor (invoiceNumber: string, customerName: string, notes: string)
      ensures this.invoiceNumber == invoiceNumber && this.customerName == customerName && this.notes == notes
      ensures totalAmount == 0 && items == []
    {
      this.invoiceNumber := invoiceNumber;
      this.customerName := customerName;
      this.notes := notes;
      totalAmount := 0;
      items := [];
    }

    /** `Sale.calculate_total`: writes the sum of quantity * unit price over the
        sale's items into `total_amount`; the items are only read. */
    method CalculateTotal()
      modifies this`totalAmount
      ensures totalAmount == Total(items)
    {
      totalAmount := Sum(items);
    }
  }

  class SaleItem {
    const sale: Sale
    const product: Product
    var quantity: int
    var unitPrice: int
    /** Position of this item's persisted row in `sale.items`; None until saved. */
    var pk: Option<nat>

    constructor (sale: Sale, product: Product, quantity: int, unitPrice: int)
      ensures this.sale == sale && this.product == product
      ensures this.quantity == quantity && this.unitPrice == unitPrice && pk == None
    {
      this.sale := sale;
      this.product := product;
      this.quantity := quantity;
      this.unitPrice := unitPrice;
      pk := None;
    }

    /** The row `save` writes for this item. */
    function Row(): Line<Product>
      reads this
    {
      Line(product, quantity, unitPrice)
    }

    /** `SaleItem.clean`: reads the product's quantity and changes nothing. */
    method Clean() returns (err: Option<ValidationError>)
      ensures err == SaleItemCheck(quantity, product.name, product.quantity)
    {
      err := SaleItemCheck(quantity, product.name, product.quantity);
    }

    /** `SaleItem.save`: validates first; on an error nothing is stored, otherwise
        the row is inserted (first save) or overwritten (later saves). The
        product, and the sale's total, are left alone. */
    method Save() returns (err: Option<ValidationError>)
      requires pk.Some? ==> pk.value < |sale.items|
      modifies this`pk, sale`items
      ensures pk.Some? ==> pk.value < |sale.items|
      ensures err == SaleItemCheck(quantity, product.name, product.quantity)
      ensures err.Some? ==> sale.items == old(sale.items) && pk == old(pk)
      ensures err.None? && old(pk).None? ==>
        sale.items == old(sale.items) + [Row()] && pk == Some(|old(sale.items)|)
      ensures err.None? && old(pk).Some? ==>
        sale.items == old(sale.items)[old(pk).value := Row()] && pk == old(pk)
      ensures unchanged(product)
    {
      err := Clean();
      if err.None? {
        match pk
        case None =>
          pk := Some(|sale.items|);
          sale.items := sale.items + [Row()];
        case Some(k) =>
          sale.items := sale.items[k := Row()];
      }
    }
  }

  /** A client of Brand.Save: "acme corp" is stored as "Acme Corp". */
  method BrandScenario()
  {
    var brand := new Brand("acme corp");
    brand.Save();
    TitleExample();
    assert brand.name == "Acme Corp";
  }

  /** A client of StockItem.Save: with 10 on hand, an out-of-stock line of 11 is
      refused and stores nothing, one of 10 is stored, and an in-stock line of
      1000 is accepted. */
  method StockScenario(brand: Brand)
  {
    var product := new Product("Widget", brand, "", 1000, 10);
    var out := new Stock("R-1", OutOfStock, None);
    var tooMany := new StockItem(out, product, 11, 1000);
    var err := tooMany.Save();
    assert err == Some(InsufficientStock("Widget", 10)) && out.items == [];
    var exact := new StockItem(out, product, 10, 1000);
    err := exact.Save();
    assert err == None && |out.items| == 1;

    var receipt := new Stock("R-2", InStock, None);
    var large := new StockItem(receipt, product, 1000, 1000);
    err := large.Save();
    assert err == None;
    assert product.quantity == 10;
  }

  /** A client of Sale.CalculateTotal: a sale of (2 x 10.00) + (1 x 5.00) +
      (0 x 99.00) totals 25.00, and recomputing it leaves 25.00. */
  method SaleScenario(product: Product)
    requires product.quantity >= 2
  {
    var sale := new Sale("INV-1", "", "");
    var first := new SaleItem(sale, product, 2, 1000);
    var err := first.Save();
    var second := new SaleItem(sale, product, 1, 500);
    err := second.Save();
    var third := new SaleItem(sale, product, 0, 9900);
    err := third.Save();
    assert sale.items == [Line(product, 2, 1000), Line(product, 1, 500), Line(product, 0, 9900)];
    sale.CalculateTotal();
    TotalExample(product);
    assert sale.totalAmount == 2500;
    sale.CalculateTotal();
    assert sale.totalAmount == 2500;
  }
}
