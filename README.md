# Stock management records: consistency rules in Dafny

This project models the record-consistency logic of the inventory and
point-of-sale data layer in `stock/models.py`: brands and products whose names
are title-cased on every save, stock movements and sales whose line items are
checked for sufficient product quantity before they are stored, and the
recomputation of a stock movement's or a sale's `total_amount` from its line
items.

- `title_case.dfy`, module `TitleCase`: Python's `str.title()` over ASCII, as
  `Brand.save` and `Product.save` apply it. `Title` is the left-to-right scan;
  the lemmas characterise its result independently: it is the unique string that
  equals the input up to case and is in title form (every letter upper-case
  exactly when it starts a word). Idempotence and case-insensitivity are
  consequences.
- `ledger.dfy`, module `Ledger`: the pure rules. `StockItemCheck` and
  `SaleItemCheck` are the two `clean` predicates, returning the
  `InsufficientStock(product name, available quantity)` error or nothing.
  `Total` is `sum(quantity * unit_price)` over a sequence of persisted lines,
  with decimals as integers in cents, and `Sum` is the loop that computes it.
- `models.dfy`, module `StockModels`: `Brand`, `Product`, `Stock`, `StockItem`,
  `Sale`, `SaleItem` as classes. `save` and `calculate_total` are methods that
  update fields in place. A `Stock` or `Sale` holds the persisted rows of its
  line items in `items`, in insertion order. A line item remembers the position
  of its row there (`pk`), so a first save appends and a later save overwrites.
  Three client methods (`BrandScenario`, `StockScenario`, `SaleScenario`) are
  verified against the contracts on concrete cases: "acme corp" is stored as
  "Acme Corp"; with 10 on hand, out-of-stock lines of 11 and 10 are refused and
  accepted and an in-stock line of 1000 is accepted; a sale of
  (2 x 10.00) + (1 x 5.00) + (0 x 99.00) totals 25.00 and keeps that total when
  recomputed.

Field types follow the code's field declarations:

- `StockItem.quantity` (stock/models.py:72) is a `PositiveIntegerField`, which
  admits 0, so it is a `nat`.
- `SaleItem.quantity` (stock/models.py:111) is a plain `IntegerField`, so it is
  an `int` and may be negative.
- The `DecimalField`s for prices (stock/models.py:28, 73, 112) have no minimum,
  so prices are `int` cents.
- Neither `clean` nor `save` decrements the product's quantity, and the model
  does not either: every item save leaves its product unchanged.

## Model

| member | source | states |
|---|---|---|
| `TitleCase.TitleFrom` | stock/models.py:18 | The `str.title()` scan carrying "previous character was a letter": position i is lower-cased when it follows a letter (or the carried flag at i = 0) and upper-cased otherwise, length preserved |
| `TitleCase.Title` | stock/models.py:17-18 | The stored name: each character is lower-cased when the character before it is a letter and upper-cased otherwise; same length as the input |
| `TitleCase.TitleIsTitled` | stock/models.py:18 | The title-cased name is in title form (a letter is upper-case iff it starts a word) and equals the input up to case |
| `TitleCase.TitleUnique` | stock/models.py:18 | Any string in title form that equals s up to case is exactly Title(s), so the two properties above define title-casing |
| `TitleCase.TitleIdempotent` | stock/models.py:17-18 | Title-casing an already title-cased name changes nothing, so saving a record again keeps its name |
| `TitleCase.TitleCaseInsensitive` | stock/models.py:8-18 | Names equal up to case are stored as the same name (so "Acme" and "ACME" then clash on the unique name column) |
| `TitleCase.TitleExample` | stock/models.py:18 | "acme corp" is stored as "Acme Corp" |
| `StockModels.Brand.Save` | stock/models.py:15-19 | The new name is Title(old name); an empty name stays empty; the new name equals the old up to case, is in title form, and is a fixed point of a second save |
| `StockModels.Product.Save` | stock/models.py:37-41 | As Brand.Save for the product's name; only the name field may change |
| `Ledger.Total` | stock/models.py:61 | The left-to-right sum of quantity * unit price in cents over the lines: 0 with no lines, and non-negative when every line's amount is |
| `Ledger.Sum` | stock/models.py:61 | The summing loop returns exactly Total(lines), the left-to-right sum of quantity * unit price (0 for no lines) |
| `Ledger.TotalAppend` | stock/models.py:61 | One more line item raises the total by exactly its quantity * unit price |
| `Ledger.TotalConcat` | stock/models.py:61 | The total of two batches of items is the sum of their totals |
| `Ledger.TotalUpdate` | stock/models.py:61 | Overwriting one line item changes the total by the new amount minus the old one |
| `Ledger.TotalPermutation` | stock/models.py:61 | Any reordering of the items gives the same total, so the unordered item query is enough |
| `Ledger.TotalExample` | stock/models.py:100 | Lines (2 x 10.00), (1 x 5.00), (0 x 99.00) total exactly 25.00 |
| `StockModels.Stock.CalculateTotal` | stock/models.py:60-63 | total_amount becomes Total(items); only total_amount may change, so the items stay as they were and a second call stores the same total |
| `StockModels.Sale.CalculateTotal` | stock/models.py:99-102 | As Stock.CalculateTotal for a sale's items |
| `Ledger.StockItemCheck` | stock/models.py:79-80 | Fails iff the stock type is out-of-stock and quantity > available, and then with InsufficientStock(product name, available) |
| `Ledger.SaleItemCheck` | stock/models.py:118-119 | Fails iff quantity > available, for any integer quantity, and then with InsufficientStock(product name, available) |
| `Ledger.InStockNeverFails` | stock/models.py:79 | For an in-stock movement the check passes whatever the quantity |
| `Ledger.SaleItemNonPositivePasses` | stock/models.py:111-119 | A zero or negative sale quantity (allowed by the plain IntegerField) always passes |
| `Ledger.SaleItemIsOutOfStockCheck` | stock/models.py:117-119 | On non-negative quantities the sale check and the out-of-stock stock check agree exactly |
| `Ledger.StockItemCheckDownwardClosed` | stock/models.py:79-80 | A stock-line quantity that passes the check still passes when lowered to any smaller natural number |
| `Ledger.SaleItemCheckDownwardClosed` | stock/models.py:111-119 | A sale-line quantity that passes the check still passes when lowered to any smaller integer, negative ones included |
| `StockModels.StockItem.Clean` | stock/models.py:78-80 | Returns the check's verdict on the stock's type, the line quantity and the product's name and quantity; it modifies nothing |
| `StockModels.StockItem.Save` | stock/models.py:82-84 | Validates first: on an error the stored items and pk are untouched; otherwise the item's row is appended (first save) or overwritten at pk (later saves); the product is unchanged |
| `StockModels.SaleItem.Clean` | stock/models.py:117-119 | Returns the sale check's verdict on the line quantity and the product's name and quantity; it modifies nothing |
| `StockModels.SaleItem.Save` | stock/models.py:121-123 | As StockItem.Save, against the sale's items and the sale check |

## Left out

- ORM persistence (`super().save`) beyond the parent's list of item rows, and the `self.save()` after `calculate_total`: the store is external; writing the field is what the model captures.
- Uniqueness of Brand/Product names, `reference_no` and `invoice_number`: the database enforces them, not this code. `TitleCaseInsensitive` shows which names would clash.
- Cascade deletes on the foreign keys (`on_delete=models.CASCADE`): Django's `delete()` carries them out, outside this code. There is no delete operation in the model, so `pk` positions never shift.
- The line item's `stock`/`sale` and `product` are fixed at construction (`const`). Re-pointing a saved item at another parent is not modelled.
- Timestamps (`auto_now`, `auto_now_add`), `Meta` ordering and table names: framework configuration.
- `__str__` methods: presentation only. `Stock.__str__` refers to a field `reference_number` that the model does not have.
- `DecimalField` `max_digits` overflow and rounding: amounts are exact integers in cents. Database integer-range limits are not modelled either: integers are unbounded.
- `stock_type` is a `CharField` whose choices `Stock.save` never validates. The model has only the two declared values. Any other stored string behaves like `InStock`, since the check compares against 'out_of_stock' only.
- `TitleCase.Title`: covers ASCII only. Python also cases non-ASCII letters and titlecase digraphs. Here every non-ASCII character is left unchanged and ends a word.
- The text of the `ValidationError` message: the error carries the product name and the available quantity it would format.
- Other `full_clean` checks (missing foreign keys, `max_length`): field types and non-null references stand in for them.
- Concurrency: not modelled. The code does not make the quantity check and the write atomic (`transaction` is imported but never used), and `clean` compares against the product's quantity as loaded in memory. So nothing stops the product's quantity changing between the check and the write. A sequential model cannot show that race.
