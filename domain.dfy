/** The records of the purchasing service: suppliers and their catalog links
    (the `proveedor` and `producto_proveedor` tables), purchase orders and their
    line items, and the line payload an order is created from. Audit
    timestamps of suppliers are not modelled; the order's creation time is. */
module Domain {
  import opened Common

  datatype PersonType = Natural | Juridica

  datatype DocumentType = CC | NIT | Pasaporte | CE

  /** A row of `proveedor`; (documento, pais) is unique across rows. */
  datatype Supplier = Supplier(
    id: Uuid,
    nombre: string,
    tipoDePersona: PersonType,
    documento: string,
    tipoDocumento: DocumentType,
    pais: string,
    direccion: Option<string>,
    telefono: Option<string>,
    email: Option<string>,
    paginaWeb: Option<string>,
    activo: bool)

  /** A row of `producto_proveedor`, keyed by (proveedorId, productoId); the
      product id comes from another service and is never checked. */
  datatype CatalogLink = CatalogLink(
    proveedorId: Uuid,
    productoId: Uuid,
    skuProveedor: Option<string>,
    precio: Option<real>,
    moneda: Option<string>,
    leadTimeDias: Option<int>,
    loteMinimo: Option<int>,
    activo: bool)

  datatype OrderState = Abierta | Enviada | Parcial | Completa | Cancelada

  /** The text stored in the `estado` column. */
  function StateName(e: OrderState): string
  {
    match e
    case Abierta => "ABIERTA"
    case Enviada => "ENVIADA"
    case Parcial => "PARCIAL"
    case Completa => "COMPLETA"
    case Cancelada => "CANCELADA"
  }

  /** One line of an order-creation payload. Price, tax and discount may be
      missing; the quantity is always there. */
  datatype LineInput = LineInput(
    productoId: Uuid,
    cantidad: int,
    precioUnitario: Option<real>,
    impuestoPct: Option<real>,
    descuentoPct: Option<real>,
    skuProveedor: Option<string>)

  /** A persisted line item: a snapshot taken when the order was created. */
  datatype OrderItem = OrderItem(
    productoId: Uuid,
    cantidad: int,
    precioUnitario: Option<real>,
    impuestoPct: Option<real>,
    descuentoPct: Option<real>,
    skuProveedor: Option<string>)

  /** A purchase order with the line items it owns. */
  datatype PurchaseOrder = PurchaseOrder(
    id: Uuid,
    codigo: string,
    proveedorId: Uuid,
    pedidoRef: Option<Uuid>,
    moneda: Option<string>,
    notas: Option<string>,
    subtotal: real,
    impuestoTotal: real,
    total: real,
    estado: OrderState,
    items: seq<OrderItem>,
    creadoEn: int)
}
