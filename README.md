# Purchasing service (ms-compras): a Dafny model

This project models the core of the purchasing micro-service of an inventory
system. The service keeps suppliers (`proveedor`) and the catalog links that say
which products a supplier offers, and at what terms (`producto_proveedor`). It
also keeps purchase orders placed with those suppliers.

Two parts of the service are modelled.

- The purchase-order service (`OrdenCompraService`, module `OrderService` in
  `orders.dfy`, totals in `totals.dfy`):
  - Creating an order checks, in this order, that the supplier exists and is
    active, that there are lines, and that the supplier's catalog offers every
    requested product. The error for unoffered products names the missing
    ids.
  - A new order starts ABIERTA. Its totals are computed from the lines, and
    each line becomes an item snapshot. An item's SKU is the one sent with the
    line when it is non-empty; otherwise it is the catalog link's.
  - Orders can be listed with filters, newest first, one page at a time.
  - Three state transitions are guarded: ENVIADA needs ABIERTA or PARCIAL;
    COMPLETA is unconditional, so it even overrides CANCELADA; CANCELADA is
    refused once the order is COMPLETA or CANCELADA. A transition changes
    `estado` and nothing else.
  - An order can be deleted in any state.
- The supplier routes (`/v1/proveedores`, module `SupplierRoutes` in
  `suppliers.dfy`):
  - Create, list, get, partial update and delete suppliers. The pair
    (documento, pais) is unique across suppliers. This is checked on create,
    and on update against every other supplier.
  - Catalog links keyed by (supplier, product): upsert, list by product id,
    and delete by key.

The database becomes a class `Db` (`store.dfy`) with one map per table, keyed as
the table is. `Db.Valid()` is the schema's integrity:
- every row sits under its own key;
- (documento, pais) is unique;
- every link and order references an existing supplier;
- order codes are unique.

Every state-changing operation is a method that `modifies` only the tables it
writes. Its `ensures` gives the new contents of those tables and preserves
`Valid()`. The random order code, new ids and the clock are parameters.

Listing follows the store's query pipeline (`listing.dfy`):
1. fetch the rows;
2. apply each `filter` that was given;
3. `order_by`, as an insertion sort under a total preorder;
4. `offset`, then `limit`.

A listing is specified against any arrangement of the matching rows that is
sorted by the ordering key. Two rows with the same key (two orders created at
the same instant, two suppliers with the same name) may come back in either
order. For catalog links the key is unique within a supplier, so that listing
is fully determined (`ByProductoListingIsUnique`).

Decimal amounts are `real`, which is exact arithmetic. Text is `seq<char>`. A
UUID is a `nat`, and its numeric order stands for the store's ordering of UUIDs.

The module defining the orders table is not part of this model. The order
record is reconstructed from the fields the service writes
(`src/services/orden_compra.py:73-101`). Two store rules about that table are
assumptions of this model, since no code in the modelled files declares them:
- an order's code is unique (`CodeConflict` when a create reuses one);
- a supplier cannot be deleted while orders reference it (`SupplierHasOrders`).

## Model

| member | source | states |
|---|---|---|
| Totals.CalcTotales | src/services/orden_compra.py:16-28 | the subtotal is the sum over the lines of the discounted line value; the tax is the sum of the tax charged on each discounted value; the total is subtotal plus tax |
| Totals.AccumulateIsSum | src/services/orden_compra.py:19-27 | running the accumulation loop from any starting accumulators adds exactly the two sums over the remaining lines |
| Totals.EmptyTotals | src/services/orden_compra.py:17-18 | no lines give subtotal, tax and total all zero |
| Totals.MissingNumbersAreZero | src/services/orden_compra.py:13-14 | a missing price makes the line worth nothing; a missing discount leaves the value undiscounted; a missing tax charges none |
| Totals.DiscountBeforeTax | src/services/orden_compra.py:22-25 | net = price·qty·(1 − d/100), tax = net·t/100, so the discount is taken before tax is charged |
| Totals.WorkedExample | src/services/orden_compra.py:16-28 | quantity 2 at 10 with 10 % tax and 5 % discount gives 19, 1.9 and 20.9 |
| Totals.TotalsOrderIndependent | src/services/orden_compra.py:19-27 | the totals do not depend on the order of the lines |
| Totals.TotalsOfConcat | src/services/orden_compra.py:19-28 | the totals of two batches of lines add up to the totals of both together |
| Totals.LineBounds | src/services/orden_compra.py:20-25 | with non-negative price and quantity and percentages in 0..100, 0 ≤ tax ≤ net ≤ line value |
| Totals.TotalsBounds | src/services/orden_compra.py:16-28 | under the same ranges, 0 ≤ tax ≤ subtotal ≤ undiscounted value of the lines, and subtotal ≤ total |
| Text.Strip | src/services/orden_compra.py:120 | the result is the slice of the search text left between its leading and trailing runs of whitespace, and neither of its ends is whitespace |
| Text.LeadingSpaces | src/services/orden_compra.py:120 | the length n of the whitespace run that starts the text: its first n characters are whitespace, and the next one, if any, is not |
| Text.TrailingSpaces | src/services/orden_compra.py:120 | the length n of the whitespace run that ends the text: its last n characters are whitespace, and the one before them, if any, is not |
| Text.StripBounds | src/services/orden_compra.py:120 | the two runs delimit a slice of the text with only whitespace before and after it |
| Text.NameLeTotal | src/routes/proveedores.py:53 | any two names compare in the ascending name order |
| Text.NameLeTransitive | src/routes/proveedores.py:53 | the ascending name order is transitive |
| Listing.Rows | src/services/orden_compra.py:114 | a query returns every row of the table exactly once |
| Listing.Filter | src/services/orden_compra.py:115-121 | a filter keeps exactly the rows it accepts, never adds one and keeps rows distinct |
| Listing.SortBy | src/services/orden_compra.py:122 | `order_by` returns the same rows, each once, in ascending order of any total preorder |
| Listing.Page | src/services/orden_compra.py:122 | `offset` then `limit`: empty past the end; otherwise min(remaining, limit) rows, the consecutive run starting at `offset` |
| OrderService.Step | src/services/orden_compra.py:125-145 | a refused transition fails with an invalid-transition error; an accepted one goes to ENVIADA, COMPLETA or CANCELADA |
| OrderService.Fire | src/services/orden_compra.py:125-145 | a transition on an order succeeds exactly when its guard holds, and then changes `estado` and nothing else |
| OrderService.MarkSentGuard | src/services/orden_compra.py:127-128 | an order can be sent if and only if it is ABIERTA or PARCIAL |
| OrderService.CancelGuard | src/services/orden_compra.py:141-142 | an order can be cancelled if and only if it is neither COMPLETA nor CANCELADA |
| OrderService.MarkCompleteUnconditional | src/services/orden_compra.py:133-137 | completing succeeds from every state, CANCELADA included |
| OrderService.NeverReopens | src/services/orden_compra.py:124-145 | no sequence of transition requests brings an order back to ABIERTA |
| OrderService.ParcialNeverEntered | src/services/orden_compra.py:124-145 | no sequence of transition requests puts an order into PARCIAL |
| OrderService.ClosedStaysClosed | src/services/orden_compra.py:124-145 | a COMPLETA or CANCELADA order stays COMPLETA or CANCELADA whatever is requested |
| OrderService.CompletaIsFinal | src/services/orden_compra.py:124-145 | a COMPLETA order never changes state again |
| OrderService.Unoffered | src/services/orden_compra.py:53-61 | a product is reported missing if and only if a line requests it and the supplier has no catalog link for it |
| OrderService.ResolveCode | src/services/orden_compra.py:66-67 | a non-empty code given is kept; a missing or empty one is replaced by the generated code |
| OrderService.SkuSnapshot | src/services/orden_compra.py:100 | the line's SKU when it is non-empty text, the catalog link's otherwise |
| OrderService.OfferedLinesHaveLinks | src/services/orden_compra.py:89-91 | once no product is missing, every line finds the supplier's link for its product |
| OrderService.NewOrderKeepsOrdersValid | src/services/orden_compra.py:73-85 | an order stored under a fresh id, for an existing supplier and with an unused code, keeps the orders table valid |
| OrderService.BuildItems | src/services/orden_compra.py:89-102 | one item per line, in order, each the snapshot of its line and of the supplier's link for its product |
| OrderService.SnapshotKeepsLine | src/services/orden_compra.py:93-100 | an item keeps its line's product, quantity, price, tax and discount, and a line without SKU takes the catalog's |
| OrderService.NewestFirstIsPreorder | src/services/orden_compra.py:122 | descending creation time is a total preorder, so the sorted listing is newest first |
| OrderService.UnknownStateMatchesNothing | src/services/orden_compra.py:117-118 | a non-empty state filter that names no state matches no order |
| OrderService.OrdenCompraService.constructor | src/services/orden_compra.py:31-32 | the service works on the store it is given |
| OrderService.OrdenCompraService.Obtener | src/services/orden_compra.py:109-110 | the stored order when the id exists, nothing otherwise |
| OrderService.OrdenCompraService.Ensure | src/services/orden_compra.py:153-157 | succeeds if and only if the order exists, with that order; not-found otherwise |
| OrderService.OrdenCompraService.Crear | src/services/orden_compra.py:35-106 | errors in order: invalid or inactive supplier, no lines, unoffered products (exactly the missing ids), duplicate code; nothing is stored on error; a reused code gives exactly the code-conflict error. On success exactly one order is added: ABIERTA, the resolved code, the given reference, currency and notes, the computed totals, and the item snapshots |
| OrderService.OrdenCompraService.Listar | src/services/orden_compra.py:112-122 | the page at `offset` of at most `limit` orders, taken from an arrangement newest-first of exactly the orders passing every given filter (supplier, state name, code containing the stripped text) |
| OrderService.OrdenCompraService.MarcarEnviada | src/services/orden_compra.py:125-131 | not-found, or the guarded transition to ENVIADA; on success only that order's state changes, on failure nothing does |
| OrderService.OrdenCompraService.MarcarCompleta | src/services/orden_compra.py:133-137 | not-found, or the order set to COMPLETA; only that order's state changes |
| OrderService.OrdenCompraService.Cancelar | src/services/orden_compra.py:139-145 | not-found, or the guarded transition to CANCELADA; on success only that order's state changes, on failure nothing does |
| OrderService.OrdenCompraService.Eliminar | src/services/orden_compra.py:148-150 | not-found with nothing changed, or exactly that order removed, whatever its state |
| SupplierRoutes.NewSupplier | src/routes/proveedores.py:24-29 | the new record has the given id and identity; it is active unless `activo` was sent as false, since an absent or null value takes the column default |
| SupplierRoutes.PatchTouchesOnlySentFields | src/routes/proveedores.py:75-92 | for each of the ten fields, a field not sent keeps its value and a field sent takes the sent value; the id never changes |
| SupplierRoutes.NoChangesIsIdentity | src/routes/proveedores.py:75-92 | a patch sending nothing leaves the supplier as it was |
| SupplierRoutes.PatchIdempotent | src/routes/proveedores.py:91-92 | applying the same patch twice equals applying it once |
| SupplierRoutes.PatchesCompose | src/routes/proveedores.py:91-92 | two patches in a row equal one patch where the later value of each field wins |
| SupplierRoutes.LinkFrom | src/routes/proveedores.py:126 | a new link belongs to the given supplier and to the payload's product |
| SupplierRoutes.ResendingOwnDocumentIsNoConflict | src/routes/proveedores.py:80-89 | re-sending a supplier's own (documento, pais) never conflicts, because the check skips the record itself |
| SupplierRoutes.NoIdentityChangeNoCheck | src/routes/proveedores.py:80 | a patch sending neither documento nor pais is never refused for a conflict |
| SupplierRoutes.UpdateKeepsSuppliersValid | src/routes/proveedores.py:79-92 | an update that passes the conflict check keeps every supplier under its id and (documento, pais) unique |
| SupplierRoutes.ByNombreIsPreorder | src/routes/proveedores.py:53 | ascending name is a total preorder over suppliers |
| SupplierRoutes.ByProductoIsPreorder | src/routes/proveedores.py:147 | ascending product id is a total preorder over links |
| SupplierRoutes.LinkAtItsKey | src/domain/models.py:52-53 | every stored link is found under its own (supplier, product) key |
| SupplierRoutes.ByProductoListingIsUnique | src/routes/proveedores.py:147 | two listings in strictly ascending product order holding the same links are equal |
| SupplierRoutes.CrearProveedor | src/routes/proveedores.py:13-33 | conflict, with nothing stored, if and only if some supplier has the same (documento, pais); otherwise exactly one record is added under the new id, and uniqueness still holds |
| SupplierRoutes.ListarProveedores | src/routes/proveedores.py:36-53 | at most `limit` suppliers: the page at `offset` of an arrangement, by ascending name, of exactly the suppliers passing every given filter (stripped text in name or document, country, active flag) |
| SupplierRoutes.ObtenerProveedor | src/routes/proveedores.py:56-61 | the stored supplier, or not-found |
| SupplierRoutes.ActualizarProveedor | src/routes/proveedores.py:64-96 | not-found; or, when documento or pais is sent and the merged pair belongs to another supplier, a conflict with nothing changed; otherwise the supplier replaced by its patched self, nothing else changed, and uniqueness kept |
| SupplierRoutes.ApplyPatch | src/routes/proveedores.py:91-92 | the field-by-field assignment yields the patched supplier |
| SupplierRoutes.EliminarProveedor | src/routes/proveedores.py:99-106 | not-found; refused while orders reference the supplier; otherwise the delete succeeds, and the supplier is removed with exactly its catalog links while every other link is kept |
| SupplierRoutes.DeleteKeepsStoreValid | src/domain/models.py:38-52 | removing a supplier that no order references, together with its links, leaves every table valid |
| SupplierRoutes.AsociarProducto | src/routes/proveedores.py:110-131 | not-found for an unknown supplier; otherwise the (supplier, product) link is set to the payload's terms. An existing key is overwritten and the key set is unchanged; a new key is inserted and the key set grows by exactly it |
| SupplierRoutes.ListarProductosDeProveedor | src/routes/proveedores.py:134-147 | not-found for an unknown supplier; otherwise exactly that supplier's links (only active or inactive ones when asked), each once, in strictly ascending product id |
| SupplierRoutes.DesasociarProducto | src/routes/proveedores.py:150-161 | not-found with nothing changed, or exactly the keyed link removed |

## Left out

- The HTTP layer is not modelled: routing, status codes and response models. Each refusal is an `Error` value instead of an HTTP status.
- Request validation is not modelled: the email and URL formats, and the length limits of text fields. The only bounds kept are the ones the listing route places on `limit` (1..200) and on `pais` (two characters).
- Session mechanics are not modelled: flush, commit, refresh and rollback. Each operation is atomic.
- Clocks, randomness and ids are not modelled. The generated order code, new ids and the creation time are parameters; the `OC-<year>-<hex>` format is not produced.
- Supplier audit timestamps (`creado_en`, `actualizado_en`) are not modelled.
- Totals.CalcTotales: uses exact rational arithmetic. It does not model the 28-digit Decimal context, or the rounding to 4 decimals when amounts are stored.
- Totals.CalcTotales: the quantity is always present on a line, because the item loop reads it unconditionally.
- OrderService.OrdenCompraService.Listar: the search is case-sensitive. It does not model `ilike`'s case-insensitive match.
- OrderService.OrdenCompraService.Listar: `%` and `_` in the search text match only themselves. In the `LIKE` pattern the code builds they are wildcards.
- OrderService.OrdenCompraService.Listar: ties in creation time may come back in either order.
- SupplierRoutes.ListarProveedores: the search is case-sensitive. Names are ordered by character code, not by the database collation.
- SupplierRoutes.ListarProveedores: `%` and `_` in the search text match only themselves. In the `LIKE` pattern the code builds they are wildcards.
- SupplierRoutes.AsociarProducto: `activo` in the payload is a plain boolean. A payload with an explicit null `activo` fails in the store, because the column is not nullable; that failure is not modelled.
- SupplierRoutes.AsociarProducto: the price arrives as a float and is stored as a 4-decimal number; the model treats it as exact.
- SupplierRoutes.CrearProveedor: converting `pagina_web` to text is the identity, because URLs are already text here.
- Catalog links are not unique on (supplier, SKU). The schema (`src/domain/models.py:49-62`) declares no such constraint, so the model has none.
- `listar_proveedores_por_producto` is not modelled. Neither is its float conversion of the price.
- The orders routes file is not modelled. Neither is `schemas.py` beyond the payload fields; `Pydantic` enums become Dafny datatypes.
- The mock-based tests are not modelled.
