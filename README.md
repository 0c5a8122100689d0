# Synthetic e-commerce generator and validator, modelled in Dafny

This project models the core of the synthetic e-commerce data platform. That core is the pipeline that generates five related tables and the validator run over them before they are saved:

- customers;
- products;
- orders;
- order items;
- payments.

The pipeline exists twice in the repository, as `etl/generate_data.py` (the full script) and `etl/generate_data_simple.py` (the simple script). It is modelled once, with a `Variant` parameter (`Full` or `Simple`) wherever the two differ:

- In the full script, a payment is dated 0 to 7 days after its order. The simple script draws the payment date on its own.
- The full script validates every generated frame against a pandera schema. It also refuses missing names in its validator.

Modelling choices:

- **Random draws are inputs.** Every draw becomes an input: Faker names, words, e-mails and dates, the log-normal prices, `random.choice`, `random.randint`, `sample(n=1)` and the 70/30 branch. Each input is constrained only to the range the source draws from.
- **Money is in integer cents.** Prices are rounded to two decimals before use, so in the model line totals and their sums are exact. On whole cents, the validator's `abs(a - b) < 0.01` admits only equality (`Validator.Within`). The source compares doubles, where this is not quite so (see "## Left out").
- **Dates are day numbers.**

Module layout:

- `wrappers.dfy`: `Option`, `Result`, `Outcome`.
- `records.dfy`: the five record types, the generator errors, sums per order, and the schema step.
- `schema.dfy`: the pandera schemas, as predicates.
- `customers.dfy`, `products.dfy`, `orders.dfy`, `order_items.dfy`, `payments.dfy`: one generator each.
- `validator.dfy`: `validate_data`.
- `pipeline.dfy`: `main`.

The generators are imperative methods whose loops are proved against specification functions (`CustomerRows`, `ProductRows`, `OrderRows`, `AllocatedItems`, `Finalised`, `PaymentRows`). The orders frame that `generate_order_items` updates in place is an `array<Order>`, written back row by row.

The central theorem is `Pipeline.GeneratedIsConsistent`. It holds for any draws in range: once the generators succeed, the dataset is consistent and the validator accepts it. Consistent means:

- every order has at least one item;
- every order total equals the sum of its line totals;
- every order is paid, with the amount equal to the order total;
- every key is unique;
- every foreign key resolves.

`Pipeline.RunPipeline` states that a run never ends in a validation error. The only ways it can fail are the generator errors listed in `Succeeds`.

Where the design description and the code disagree, the model follows the code:

- Asking for fewer items than there are orders is not an error. The coverage phase still emits one item per order, and the remaining range is empty.
- Generating zero rows is not refused up front.
  - In the full script, the schema step rejects the empty frame.
  - In the simple script, the empty frame has no columns. A later column access fails instead: the logged price range of `generate_products`, `set_index` in `generate_order_items`, or the validator's first read of that table.
  - With zero customers, `random.randint(1, 0)` fails on the first order.
- A negative product count fails first, in both scripts, at the log-normal price draw, which refuses a negative size. Negative counts of the other tables behave like zero.
- The validator stops at the first failed assertion. It does not collect every violation.
- The validator does not check that each order has exactly one payment. It checks that every order has a payment and that every payment matches its order's total.
- In the simple script a payment can be dated before its order (`PaymentGenerator.SimplePaymentMayPrecedeOrder`).

## Model

| member | source | states |
|---|---|---|
| CustomerGenerator.Dedup | etl/generate_data.py:101-108 | The addresses kept by the retry-until-fresh loop are pairwise distinct and never more than the candidates drawn. |
| CustomerGenerator.DedupFromStream | etl/generate_data.py:105-107 | Every address kept was drawn from the candidate stream. |
| CustomerGenerator.DedupPrefix | etl/generate_data.py:103-108 | Reading more candidates only appends to the addresses kept so far, so the loop's choices are a prefix of the stream's distinct addresses. |
| CustomerGenerator.NextFreshEmail | etl/generate_data_simple.py:36-39 | The retry loop ends at a candidate not yet handed out, having consumed the stream up to and including it, and the kept list grows by exactly that address. |
| CustomerGenerator.CustomerRows | etl/generate_data.py:103-118 | N customers with ids 1..N in order, pairwise-distinct e-mails taken from the stream, and both names present. |
| CustomerGenerator.BuildCustomers | etl/generate_data_simple.py:34-49 | The customer loop with the e-mail set builds exactly `CustomerRows`. |
| CustomerGenerator.CustomersSchemaIff | etl/generate_data.py:51-57 | The customers schema accepts the generated frame exactly when it is non-empty and every name has at least 1 character and every e-mail at least 5. |
| CustomerGenerator.GenerateCustomers | etl/generate_data.py:92-124 | The result is the generated customers passed through the schema step, and it succeeds exactly in the simple script or when the schema's text conditions hold on a non-empty frame. |
| ProductGenerator.FlooredPrice | etl/generate_data.py:143 | `max(0.01, price)`: at least one cent, and the drawn price itself whenever that is at least one cent. |
| ProductGenerator.ProductRows | etl/generate_data.py:141-150 | N products with ids 1..N, every price at least 0.01 and every category one of the ten listed. |
| ProductGenerator.ProductsSchemaIff | etl/generate_data.py:59-67 | The products schema accepts the generated frame exactly when it is non-empty. |
| ProductGenerator.GenerateProducts | etl/generate_data_simple.py:55-81 | A negative count fails at the price draw with a negative-size error, in both scripts. Otherwise the product loop builds `ProductRows` and applies the schema step. A count of zero fails at the schema in the full script and at the logged price range in the simple one. It succeeds exactly when at least one product is asked for. |
| OrderGenerator.OrderRows | etl/generate_data.py:168-178 | M orders with ids 1..M, each with its drawn customer and date, and total 0. |
| OrderGenerator.OrdersSchemaIff | etl/generate_data.py:69-74 | The orders schema accepts the generated frame exactly when it is non-empty, given customer ids drawn from 1..N. |
| OrderGenerator.GenerateOrders | etl/generate_data_simple.py:83-101 | The order loop builds `OrderRows` and applies the schema step. With no customers, the first draw fails. On success every customer id is in [1, N] and every total is 0. |
| OrderItemGenerator.AllocatedItems | etl/generate_data.py:191-246 | |orders| + max(0, K - |orders|) items with ids 1..count. The first |orders| items are one per order, in order, with quantity in [1,3]. Every item refers to an existing order and product, has quantity in [1,10], and has line total = quantity × that product's price. |
| OrderItemGenerator.CoverOrders | etl/generate_data.py:197-216 | The coverage loop emits one item per order, in frame order, and keeps each order's running total equal to its starting total plus its items so far. |
| OrderItemGenerator.DistributeItems | etl/generate_data_simple.py:135-162 | The distribution loop emits the remaining items to the drawn orders and keeps the running totals, ending with exactly `AllocatedItems`. |
| OrderItemGenerator.Allocate | etl/generate_data.py:190-246 | Both phases together yield `AllocatedItems` and a per-order accumulator seeded with each order's existing total. |
| OrderItemGenerator.Finalised | etl/generate_data.py:248-250 | The orders frame after write-back: same length, and each order keeps its id, customer and date. |
| OrderItemGenerator.WriteBack | etl/generate_data_simple.py:164-166 | Writing each order's accumulated total into its row turns the frame into `Finalised` of the old frame. |
| OrderItemGenerator.GenerateOrderItems | etl/generate_data.py:186-256 | Before any change, the generator fails on an empty orders frame, on repeated order ids, and on an empty products frame. Otherwise the orders array becomes `Finalised(old, items)` and the result is the schema step over `AllocatedItems`. |
| OrderItemGenerator.LineTotalsNonNegative | etl/generate_data.py:204 | With no negative price, no line total is negative. |
| OrderItemGenerator.OrderItemsSchemaHolds | etl/generate_data.py:76-82 | The order-items schema accepts the items built for a non-empty frame of orders with positive ids and products with positive ids and non-negative prices. |
| OrderItemGenerator.FinalisedTotalsMatchItems | etl/generate_data.py:215 | On zero-total order shells, every finalised order keeps its id and has at least one item. Its total equals the sum of its items' line totals and is non-negative. |
| PaymentGenerator.PaymentRows | etl/generate_data.py:265-275 | One payment per order, with ids 1..M in order. Each copies its order's id and total and uses one of card, paypal or bank. In the full script the payment date is between the order date and the order date + 7. |
| PaymentGenerator.PaymentsSchemaIff | etl/generate_data.py:84-90 | The payments schema accepts the generated frame exactly when the orders frame is non-empty with positive ids and non-negative totals. |
| PaymentGenerator.GeneratePayments | etl/generate_data_simple.py:172-193 | The payment loop builds `PaymentRows` and applies the schema step, with the success condition above. |
| PaymentGenerator.SimplePaymentMayPrecedeOrder | etl/generate_data_simple.py:180 | In the simple script a payment can be dated before its order. |
| Schema.CustomersSchema | etl/generate_data.py:51-57 | A customers frame that passes the schema passes the validator's customer checks in either script. |
| Schema.ProductsSchema | etl/generate_data.py:59-67 | A products frame that passes the schema passes the validator's product checks in either script. |
| Schema.OrdersSchema | etl/generate_data.py:69-74 | An orders frame that passes the schema passes the validator's order checks. |
| Schema.OrderItemsSchema | etl/generate_data.py:76-82 | An order-items frame that passes the schema passes the validator's item checks. |
| Schema.PaymentsSchema | etl/generate_data.py:84-90 | A payments frame that passes the schema passes the validator's payment checks. |
| Records.TotalsById | etl/generate_data.py:321 | `set_index('order_id')['total_amount']` on unique ids maps each order's id to its total and holds no other key. |
| Records.SumForNonNegative | etl/generate_data.py:320 | An order's item sum is non-negative when no line total is negative. |
| Records.Gate | etl/generate_data.py:122 | The schema step passes the frame through unchanged when the schema holds or in the simple script, and fails with a schema error otherwise. |
| Validator.Within | etl/generate_data.py:336 | On whole cents, `abs(a - b) < 0.01` holds exactly when a = b. |
| Validator.ItemTotals | etl/generate_data.py:320 | The grouped item totals have a key exactly for the order ids that have items, and each value is that order's item sum. |
| Validator.CheckCustomers | etl/generate_data.py:288-291 | The customer checks pass exactly when the table is non-empty with unique ids and e-mails and, in the full script, both names present on every row. |
| Validator.CheckProducts | etl/generate_data.py:294-296 | The product checks pass exactly when the table is non-empty with unique ids, every price above zero and, in the full script, every name present. |
| Validator.CheckOrders | etl/generate_data.py:299-300 | The order checks pass exactly when the table is non-empty with unique ids and no negative total. |
| Validator.CheckOrderItems | etl/generate_data.py:304-306 | The item checks pass exactly when the table is non-empty with unique ids, every quantity above zero and no negative line total. |
| Validator.CheckPayments | etl/generate_data.py:309-311 | The payment checks pass exactly when the table is non-empty with unique ids, no negative amount and every method one of card, paypal or bank. |
| Validator.CheckReferences | etl/generate_data.py:314-317 | The reference checks pass exactly when every order's customer, every item's order and product, and every payment's order exist. |
| Validator.AlignedWithin | etl/generate_data.py:336 | The tolerance comparison of two series aligned on their order ids passes exactly when the two series are equal: same ids, same amounts. |
| Validator.PaymentsAlignedWithin | etl/generate_data.py:341 | When the payment comparison passes, the order ids of the totals are exactly the order ids that have a payment. |
| Validator.Validate | etl/generate_data_simple.py:195-236 | The checks run in the source's order and stop at the first failure. A missing column is reported only when some table is empty. A total mismatch is reported only once every row and reference check has passed. The simple script never reports a missing name. |
| Validator.ItemTotalsAligned | etl/generate_data.py:319-336 | When items refer only to existing orders, the aligned comparison passes exactly when every order has items and its total equals their sum. An order without items meets a NaN and fails. |
| Validator.PaymentsAligned | etl/generate_data.py:338-341 | The aligned payment comparison passes exactly when every order has a payment and every payment's amount equals its order's total. |
| Validator.ValidateAccepts | etl/generate_data.py:283-343 | The validator accepts a dataset exactly when it is consistent: tables non-empty, ids and e-mails unique, value ranges and payment methods respected, names present in the full script, references resolved, totals equal to item sums, and payments equal to totals. |
| Validator.EmptyTableReported | etl/generate_data_simple.py:195-234 | A dataset with an empty table is always rejected, and never by a total comparison. An empty customers table is reported as a missing column. |
| Validator.FullIsStricter | etl/generate_data.py:288-296 | Whatever the full script's validator accepts, the simple script's validator accepts too. |
| Pipeline.GeneratedDataset | etl/generate_data.py:365-373 | The generated tables have N customers, P products, M orders, M payments and max(K, M) items. |
| Pipeline.CustomersValid | etl/generate_data.py:288-289 | Generated customers have unique ids and e-mails, and both names. |
| Pipeline.ShellsValid | etl/generate_data.py:168-178 | The order shells have unique positive ids and zero totals. |
| Pipeline.OrdersReferenceCustomers | etl/generate_data.py:169 | Every order's customer id is the id of a generated customer. |
| Pipeline.FinalOrdersValid | etl/generate_data.py:248-250 | The finalised orders keep their ids, pass the orders checks, and have totals equal to their item sums. |
| Pipeline.ItemsValid | etl/generate_data.py:304-316 | The generated items pass the item checks, and every one refers to an existing order and product. |
| Pipeline.PaymentsValid | etl/generate_data.py:309-317 | The generated payments pass the payment checks, every order has one, every payment refers to an order, and every payment equals its order's total. |
| Pipeline.GeneratedIsConsistent | etl/generate_data.py:363-377 | For any draws in range, once the generators succeed, the generated dataset is consistent and the validator accepts it. |
| Pipeline.MainRunPasses | etl/generate_data_simple.py:256-263 | With the sizes `main` uses, the run passes the validator with exactly the asked-for number of rows in every table. |
| Pipeline.FinaliseOrders | etl/generate_data.py:371 | The item phase on a fresh orders frame returns the finalised orders and the items, or fails on an empty orders frame. |
| Pipeline.ItemsAndPayments | etl/generate_data.py:371-373 | The item and payment phases return the finalised orders, the items and one payment per finalised order. |
| Pipeline.GenerateTables | etl/generate_data.py:365-373 | The generators succeed exactly when `Succeeds` holds: at least one customer, product and order, and the full script's text conditions on customers. On success they return `GeneratedDataset`. |
| Pipeline.RunPipeline | etl/generate_data.py:357-377 | A run succeeds exactly when `Succeeds` holds. It then returns `GeneratedDataset`, which the validator accepts. A failed run always failed in a generator, never in the validator. |

## Left out

- Faker, `numpy.random.lognormal`, `random` and the 70/30 quantity branch: their outputs are inputs to the model. Only the ranges they draw from are kept.
- Email generation: the e-mail loop is modelled on a finite candidate stream. The model requires that the stream offers enough distinct addresses. The source loops until Faker produces a fresh one, and that loop need not end.
- Float rounding drift: amounts are exact integer cents. `round(..., 2)` and `.round(2)` are the identity on cents.
- Validator.Within: the source compares doubles, where some one-cent gaps fall below 0.01 (`abs(0.03 - 0.02)` is 0.009999999999999998). The source's total checks (etl/generate_data.py:336, 341) therefore let some one-cent differences through, which `Within` rejects.
- `datetime.now()`, `timedelta` and date ranges: dates are integer day numbers. The signup and order windows are not constrained.
- The pandera `Column` dtype checks (`int`, `str`, `float`, `object`): the record types fix each field's type.
- Frames that have columns but no rows: every frame the generators build from an empty record list has no columns, and that is the only kind of empty table the model represents. `validate_data` given an empty frame that does have its columns passes every check, because `.is_unique` and `.all()` hold on an empty series. The model reports a missing column instead (`Validator.EmptyTableReported`).
- The validator's null check on `orders.customer_id` (etl/generate_data.py:301): customer ids are plain integers in the model, so that check can never fail and is omitted.
- The debug printing of mismatched orders (etl/generate_data.py:322-334), logging, `save_dataframes_to_csv`, the statistics printout, and the environment setup in both scripts: output only.
- The pandas mechanics beyond their effect: `set_index`, `to_dict('index')`, `groupby`, row masks and alignment. They are modelled by their result: a map keyed by order id, an error on repeated ids, and a NaN that fails the tolerance check.
