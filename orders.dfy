/** The purchase-order service (`OrdenCompraService`): order creation against a
    supplier's catalog, listing, the state machine of an order, and deletion.
    The random order code, the new order's id and the clock are parameters. */
module OrderService {
  import opened Common
  import opened Domain
  import opened Text
  import opened Listing
  import opened Totals
  import opened Store

  // ---------------------------------------------------------------- state machine

  datatype Transition = MarkSent | MarkComplete | Cancel

  /** The guard and target of each transition. Sending needs an open or
      partially received order; completing is unconditional; cancelling is
      refused once the order is complete or cancelled. */
  function Step(t: Transition, e: OrderState): (r: Result<OrderState>)
    ensures r.Err? ==> r.error == InvalidTransition
    ensures r.Ok? ==> r.value == (match t case MarkSent => Enviada case MarkComplete => Completa case Cancel => Cancelada)
  {
    match t
    case MarkSent => if e == Abierta || e == Parcial then Ok(Enviada) else Err(InvalidTransition)
    case MarkComplete => Ok(Completa)
    case Cancel => if e == Completa || e == Cancelada then Err(InvalidTransition) else Ok(Cancelada)
  }

  /** A transition applied to a loaded order: only `estado` changes. */
  function Fire(t: Transition, o: PurchaseOrder): (r: Result<PurchaseOrder>)
    ensures r.Ok? <==> Step(t, o.estado).Ok?
    ensures r.Ok? ==> r.value == o.(estado := Step(t, o.estado).value)
    ensures r.Err? ==> r.error == InvalidTransition
  {
    match Step(t, o.estado)
    case Ok(e) => Ok(o.(estado := e))
    case Err(x) => Err(x)
  }

  /** The state after a sequence of transition requests on one order; a
      refused request leaves the state as it was. */
  function Run(ts: seq<Transition>, e: OrderState): OrderState
  {
    if ts == [] then e
    else
      var next := match Step(ts[0], e) case Ok(e') => e' case Err(_) => e;
      Run(ts[1..], next)
  }

  lemma MarkSentGuard(e: OrderState)
    ensures Step(MarkSent, e).Ok? <==> e in {Abierta, Parcial}
  {
  }

  lemma CancelGuard(e: OrderState)
    ensures Step(Cancel, e).Ok? <==> e !in {Completa, Cancelada}
  {
  }

  /** Completing has no guard: it even turns a cancelled order into a complete one. */
  lemma MarkCompleteUnconditional(e: OrderState)
    ensures Step(MarkComplete, e) == Ok(Completa)
  {
  }

  /** Once an order has left ABIERTA, no sequence of requests brings it back. */
  lemma {:induction false} NeverReopens(ts: seq<Transition>, e: OrderState)
    requires e != Abierta
    ensures Run(ts, e) != Abierta
  {
    if ts != [] {
      var next := match Step(ts[0], e) case Ok(e') => e' case Err(_) => e;
      NeverReopens(ts[1..], next);
    }
  }

  /** No operation of the service puts an order into PARCIAL. */
  lemma {:induction false} ParcialNeverEntered(ts: seq<Transition>, e: OrderState)
    requires e != Parcial
    ensures Run(ts, e) != Parcial
  {
    if ts != [] {
      var next := match Step(ts[0], e) case Ok(e') => e' case Err(_) => e;
      ParcialNeverEntered(ts[1..], next);
    }
  }

  /** A complete or cancelled order stays complete or cancelled. */
  lemma {:induction false} ClosedStaysClosed(ts: seq<Transition>, e: OrderState)
    requires e == Completa || e == Cancelada
    ensures Run(ts, e) == Completa || Run(ts, e) == Cancelada
  {
    if ts != [] {
      var next := match Step(ts[0], e) case Ok(e') => e' case Err(_) => e;
      ClosedStaysClosed(ts[1..], next);
    }
  }

  /** A complete order never changes state again. */
  lemma {:induction false} CompletaIsFinal(ts: seq<Transition>)
    ensures Run(ts, Completa) == Completa
  {
    if ts != [] {
      CompletaIsFinal(ts[1..]);
    }
  }

  // ---------------------------------------------------------------- creation helpers

  /** The active supplier an order must be placed with. */
  predicate SupplierUsable(suppliers: map<Uuid, Supplier>, proveedorId: Uuid)
  {
    proveedorId in suppliers && suppliers[proveedorId].activo
  }

  /** The distinct products the lines ask for. */
  function ProductIds(lines: seq<LineInput>): set<Uuid>
  {
    set l | l in lines :: l.productoId
  }

  /** The requested products the supplier has no catalog link for: the
      requested ids less the product ids of the links found for them. */
  function Unoffered(links: map<(Uuid, Uuid), CatalogLink>, proveedorId: Uuid, lines: seq<LineInput>): (m: set<Uuid>)
    requires LinksKeyed(links)
    ensures forall p :: p in m <==> p in ProductIds(lines) && (proveedorId, p) !in links
  {
    var ids := ProductIds(lines);
    var validIds := set k | k in links && k.0 == proveedorId && k.1 in ids :: links[k].productoId;
    assert forall p :: p in validIds ==> (proveedorId, p) in links;
    assert forall p :: p in ids && (proveedorId, p) in links ==> p in validIds by {
      forall p | p in ids && (proveedorId, p) in links ensures p in validIds {
        var k := (proveedorId, p);
        assert links[k].productoId == p;
      }
    }
    ids - validIds
  }

  /** The order code: the one given, unless it is missing or empty, in which
      case the generated one. */
  function ResolveCode(codigo: Option<string>, generated: string): (c: string)
    ensures codigo.Some? && codigo.value != "" ==> c == codigo.value
    ensures codigo.None? || codigo.value == "" ==> c == generated
  {
    if codigo.Some? && codigo.value != "" then codigo.value else generated
  }

  /** The order code is already used by a stored order. */
  predicate CodeTaken(orders: map<Uuid, PurchaseOrder>, code: string)
  {
    exists k :: k in orders && orders[k].codigo == code
  }

  /** The supplier SKU kept on an item: the line's own SKU when it is a
      non-empty text, otherwise the catalog link's. */
  function SkuSnapshot(given: Option<string>, fromCatalog: Option<string>): (s: Option<string>)
    ensures given.Some? && given.value != "" ==> s == given
    ensures given.None? || given.value == "" ==> s == fromCatalog
  {
    if given.Some? && given.value != "" then given else fromCatalog
  }

  /** The item stored for one line. */
  function SnapshotItem(line: LineInput, link: CatalogLink): OrderItem
  {
    OrderItem(line.productoId, line.cantidad, line.precioUnitario, line.impuestoPct,
              line.descuentoPct, SkuSnapshot(line.skuProveedor, link.skuProveedor))
  }

  /** The item loop of `crear`: one item per line, in the lines' order, each
      taking its SKU from the line or from the supplier's link for its product. */
  method BuildItems(proveedorId: Uuid, lines: seq<LineInput>, links: map<(Uuid, Uuid), CatalogLink>)
    returns (items: seq<OrderItem>)
    requires forall i :: 0 <= i < |lines| ==> (proveedorId, lines[i].productoId) in links
    ensures |items| == |lines|
    ensures forall i :: 0 <= i < |lines| ==>
              items[i] == SnapshotItem(lines[i], links[(proveedorId, lines[i].productoId)])
  {
    items := [];
    for i := 0 to |lines|
      invariant |items| == i
      invariant forall k :: 0 <= k < i ==>
                  items[k] == SnapshotItem(lines[k], links[(proveedorId, lines[k].productoId)])
    {
      var rel := links[(proveedorId, lines[i].productoId)];
      items := items + [SnapshotItem(lines[i], rel)];
    }
  }

  /** With no product missing, every line finds the supplier's link for its product. */
  lemma OfferedLinesHaveLinks(links: map<(Uuid, Uuid), CatalogLink>, proveedorId: Uuid, lines: seq<LineInput>)
    requires LinksKeyed(links) && Unoffered(links, proveedorId, lines) == {}
    ensures forall i :: 0 <= i < |lines| ==> (proveedorId, lines[i].productoId) in links
  {
    forall i | 0 <= i < |lines| ensures (proveedorId, lines[i].productoId) in links {
      assert lines[i].productoId in ProductIds(lines);
    }
  }

  /** Storing an order of an existing supplier, under a fresh id and an unused code, keeps the orders table valid. */
  lemma NewOrderKeepsOrdersValid(orders: map<Uuid, PurchaseOrder>, suppliers: map<Uuid, Supplier>, oc: PurchaseOrder)
    requires OrdersValid(orders, suppliers)
    requires oc.id !in orders && oc.proveedorId in suppliers && !CodeTaken(orders, oc.codigo)
    ensures OrdersValid(orders[oc.id := oc], suppliers)
  {
  }

  /** The items keep each line's product, quantity and numbers, and take the SKU by `SkuSnapshot`. */
  lemma SnapshotKeepsLine(line: LineInput, link: CatalogLink)
    ensures var item := SnapshotItem(line, link);
            && item.productoId == line.productoId && item.cantidad == line.cantidad
            && item.precioUnitario == line.precioUnitario && item.impuestoPct == line.impuestoPct
            && item.descuentoPct == line.descuentoPct
            && (line.skuProveedor.None? ==> item.skuProveedor == link.skuProveedor)
  {
  }

  // ---------------------------------------------------------------- listing helpers

  /** The conjunction of the listing filters that were given; an empty state
      or search text applies no filter. */
  predicate OrderMatches(o: PurchaseOrder, proveedorId: Option<Uuid>, estado: Option<string>, q: Option<string>)
  {
    && (proveedorId.Some? ==> o.proveedorId == proveedorId.value)
    && (estado.Some? && estado.value != "" ==> StateName(o.estado) == estado.value)
    && (q.Some? && q.value != "" ==> Contains(o.codigo, Strip(q.value)))
  }

  /** The stored orders the filters keep. */
  function MatchingOrders(orders: map<Uuid, PurchaseOrder>, proveedorId: Option<Uuid>, estado: Option<string>, q: Option<string>)
    : set<PurchaseOrder>
  {
    set o | o in orders.Values && OrderMatches(o, proveedorId, estado, q)
  }

  /** Newest first: descending creation time. */
  function NewestFirst(a: PurchaseOrder, b: PurchaseOrder): bool
  {
    a.creadoEn >= b.creadoEn
  }

  lemma NewestFirstIsPreorder()
    ensures TotalPreorder(NewestFirst)
  {
  }

  /** A state filter that names no state matches no order. */
  lemma UnknownStateMatchesNothing(o: PurchaseOrder, proveedorId: Option<Uuid>, estado: string, q: Option<string>)
    requires estado != "" && forall e: OrderState :: StateName(e) != estado
    ensures !OrderMatches(o, proveedorId, Some(estado), q)
  {
  }

  // ---------------------------------------------------------------- the service

  class OrdenCompraService {
    const db: Db

    constructor (db: Db)
      ensures this.db == db
    {
      this.db := db;
    }

    /** `obtener`: the stored order, if there is one. */
    method Obtener(id: Uuid) returns (r: Option<PurchaseOrder>)
      ensures id in db.orders ==> r == Some(db.orders[id])
      ensures id !in db.orders ==> r == None
    {
      if id in db.orders {
        r := Some(db.orders[id]);
      } else {
        r := None;
      }
    }

    /** `_ensure`: the stored order, or not-found. */
    method Ensure(id: Uuid) returns (r: Result<PurchaseOrder>)
      ensures r.Ok? <==> id in db.orders
      ensures r.Ok? ==> r.value == db.orders[id]
      ensures r.Err? ==> r.error == OrderNotFound
    {
      var oc := Obtener(id);
      if oc.None? {
        return Err(OrderNotFound);
      }
      r := Ok(oc.value);
    }

    /** `crear`: validate in order (supplier, items, catalog), then store the
        open order with its computed totals and item snapshots, all at once. */
    method Crear(proveedorId: Uuid, lines: seq<LineInput>, pedidoRef: Option<Uuid>,
                 moneda: Option<string>, notas: Option<string>, codigo: Option<string>,
                 generated: string, newId: Uuid, now: int)
      returns (r: Result<PurchaseOrder>)
      requires db.Valid()
      requires newId !in db.orders
      modifies db`orders
      ensures db.Valid()
      ensures !SupplierUsable(db.suppliers, proveedorId) ==> r == Err(InvalidSupplier)
      ensures SupplierUsable(db.suppliers, proveedorId) && lines == [] ==> r == Err(EmptyOrder)
      ensures SupplierUsable(db.suppliers, proveedorId) && lines != []
              && Unoffered(db.links, proveedorId, lines) != {}
              ==> r == Err(UnofferedProducts(Unoffered(db.links, proveedorId, lines)))
      ensures SupplierUsable(db.suppliers, proveedorId) && lines != []
              && Unoffered(db.links, proveedorId, lines) == {}
              ==> (r.Ok? <==> !CodeTaken(old(db.orders), ResolveCode(codigo, generated)))
      ensures SupplierUsable(db.suppliers, proveedorId) && lines != []
              && Unoffered(db.links, proveedorId, lines) == {}
              && CodeTaken(old(db.orders), ResolveCode(codigo, generated))
              ==> r == Err(CodeConflict)
      ensures r.Err? ==> db.orders == old(db.orders)
      ensures r.Ok? ==>
                var oc := r.value;
                && db.orders == old(db.orders)[newId := oc]
                && oc.id == newId && oc.proveedorId == proveedorId && oc.estado == Abierta
                && oc.codigo == ResolveCode(codigo, generated)
                && oc.pedidoRef == pedidoRef && oc.moneda == moneda && oc.notas == notas
                && oc.creadoEn == now
                && oc.subtotal == CalcTotales(lines).subtotal
                && oc.impuestoTotal == CalcTotales(lines).impuestos
                && oc.total == CalcTotales(lines).total
                && |oc.items| == |lines|
                && forall i :: 0 <= i < |lines| ==>
                     oc.items[i] == SnapshotItem(lines[i], db.links[(proveedorId, lines[i].productoId)])
    {
      // 1) supplier, then items
      if !(proveedorId in db.suppliers && db.suppliers[proveedorId].activo) {
        return Err(InvalidSupplier);
      }
      if lines == [] {
        return Err(EmptyOrder);
      }
      // 2) every product offered by this supplier
      var missing := Unoffered(db.links, proveedorId, lines);
      if missing != {} {
        return Err(UnofferedProducts(missing));
      }
      // 3) code
      var code := ResolveCode(codigo, generated);
      // 4) totals
      var totals := CalcTotales(lines);
      // 5) the order and 6) its items, committed together
      OfferedLinesHaveLinks(db.links, proveedorId, lines);
      var items := BuildItems(proveedorId, lines, db.links);
      if CodeTaken(db.orders, code) {
        return Err(CodeConflict);
      }
      var oc := PurchaseOrder(newId, code, proveedorId, pedidoRef, moneda, notas,
                              totals.subtotal, totals.impuestos, totals.total, Abierta, items, now);
      NewOrderKeepsOrdersValid(db.orders, db.suppliers, oc);
      db.orders := db.orders[newId := oc];
      r := Ok(oc);
    }

    /** `listar`: the orders that pass every filter given, newest first, then
        `offset` rows skipped and at most `limit` kept. */
    method Listar(proveedorId: Option<Uuid>, estado: Option<string>, q: Option<string>, limit: nat, offset: nat)
      returns (r: seq<PurchaseOrder>)
      ensures exists all ::
                && Arranges(all, MatchingOrders(db.orders, proveedorId, estado, q), NewestFirst)
                && r == Page(all, offset, limit)
    {
      var rows := Rows(db.orders.Values);
      if proveedorId.Some? {
        var p := proveedorId.value;
        rows := Filter(rows, (o: PurchaseOrder) => o.proveedorId == p);
      }
      if estado.Some? && estado.value != "" {
        var s := estado.value;
        rows := Filter(rows, (o: PurchaseOrder) => StateName(o.estado) == s);
      }
      if q.Some? && q.value != "" {
        var like := Strip(q.value);
        rows := Filter(rows, (o: PurchaseOrder) => Contains(o.codigo, like));
      }
      rows := SortBy(rows, NewestFirst);
      NewestFirstIsPreorder();
      assert Arranges(rows, MatchingOrders(db.orders, proveedorId, estado, q), NewestFirst);
      r := Page(rows, offset, limit);
    }

    /** `marcar_enviada`: from ABIERTA or PARCIAL to ENVIADA. */
    method MarcarEnviada(id: Uuid) returns (r: Result<PurchaseOrder>)
      requires db.Valid()
      modifies db`orders
      ensures db.Valid()
      ensures id !in old(db.orders) ==> r == Err(OrderNotFound)
      ensures id in old(db.orders) ==> r == Fire(MarkSent, old(db.orders)[id])
      ensures r.Ok? ==> db.orders == old(db.orders)[id := r.value]
      ensures r.Err? ==> db.orders == old(db.orders)
    {
      var oc := Ensure(id);
      if oc.Err? {
        return Err(oc.error);
      }
      var o := oc.value;
      if !(o.estado == Abierta || o.estado == Parcial) {
        return Err(InvalidTransition);
      }
      o := o.(estado := Enviada);
      db.orders := db.orders[id := o];
      r := Ok(o);
    }

    /** `marcar_completa`: to COMPLETA from any state. */
    method MarcarCompleta(id: Uuid) returns (r: Result<PurchaseOrder>)
      requires db.Valid()
      modifies db`orders
      ensures db.Valid()
      ensures id !in old(db.orders) ==> r == Err(OrderNotFound)
      ensures id in old(db.orders) ==> r == Fire(MarkComplete, old(db.orders)[id])
      ensures r.Ok? ==> db.orders == old(db.orders)[id := r.value]
      ensures r.Err? ==> db.orders == old(db.orders)
    {
      var oc := Ensure(id);
      if oc.Err? {
        return Err(oc.error);
      }
      var o := oc.value.(estado := Completa);
      db.orders := db.orders[id := o];
      r := Ok(o);
    }

    /** `cancelar`: to CANCELADA unless complete or already cancelled. */
    method Cancelar(id: Uuid) returns (r: Result<PurchaseOrder>)
      requires db.Valid()
      modifies db`orders
      ensures db.Valid()
      ensures id !in old(db.orders) ==> r == Err(OrderNotFound)
      ensures id in old(db.orders) ==> r == Fire(Cancel, old(db.orders)[id])
      ensures r.Ok? ==> db.orders == old(db.orders)[id := r.value]
      ensures r.Err? ==> db.orders == old(db.orders)
    {
      var oc := Ensure(id);
      if oc.Err? {
        return Err(oc.error);
      }
      var o := oc.value;
      if o.estado == Completa || o.estado == Cancelada {
        return Err(InvalidTransition);
      }
      o := o.(estado := Cancelada);
      db.orders := db.orders[id := o];
      r := Ok(o);
    }

    /** `eliminar`: the order, with its items, is removed whatever its state. */
    method Eliminar(id: Uuid) returns (r: Result<()>)
      requires db.Valid()
      modifies db`orders
      ensures db.Valid()
      ensures id !in old(db.orders) ==> r == Err(OrderNotFound) && db.orders == old(db.orders)
      ensures id in old(db.orders) ==> r == Ok(()) && db.orders == old(db.orders) - {id}
    {
      var oc := Ensure(id);
      if oc.Err? {
        return Err(oc.error);
      }
      db.orders := db.orders - {id};
      r := Ok(());
    }
  }
}
