/** The record store the routes and the order service share: one map per table,
    keyed as the tables are, and the integrity rules the schema enforces. */
module Store {
  import opened Common
  import opened Domain

  /** Two suppliers carry the same (documento, pais) identity. */
  predicate SameDocument(a: Supplier, b: Supplier)
  {
    a.documento == b.documento && a.pais == b.pais
  }

  /** Every supplier is stored under its own id, and no two share (documento, pais). */
  predicate SuppliersValid(suppliers: map<Uuid, Supplier>)
  {
    && (forall k :: k in suppliers ==> suppliers[k].id == k)
    && (forall a, b :: a in suppliers && b in suppliers && a != b ==> !SameDocument(suppliers[a], suppliers[b]))
  }

  /** Every link is stored under its own (supplier, product) key. */
  predicate LinksKeyed(links: map<(Uuid, Uuid), CatalogLink>)
  {
    forall k :: k in links ==> links[k].proveedorId == k.0 && links[k].productoId == k.1
  }

  /** Links are keyed, and the supplier of every link exists. */
  predicate LinksValid(links: map<(Uuid, Uuid), CatalogLink>, suppliers: map<Uuid, Supplier>)
  {
    LinksKeyed(links) && forall k :: k in links ==> k.0 in suppliers
  }

  /** Every order is stored under its id, its supplier exists, and codes are unique. */
  predicate OrdersValid(orders: map<Uuid, PurchaseOrder>, suppliers: map<Uuid, Supplier>)
  {
    && (forall k :: k in orders ==> orders[k].id == k && orders[k].proveedorId in suppliers)
    && (forall a, b :: a in orders && b in orders && a != b ==> orders[a].codigo != orders[b].codigo)
  }

  class Db {
    var suppliers: map<Uuid, Supplier>
    var links: map<(Uuid, Uuid), CatalogLink>
    var orders: map<Uuid, PurchaseOrder>

    ghost predicate Valid()
      reads this
    {
      SuppliersValid(suppliers) && LinksValid(links, suppliers) && OrdersValid(orders, suppliers)
    }

    constructor ()
      ensures Valid()
      ensures suppliers == map[] && links == map[] && orders == map[]
    {
      suppliers, links, orders := map[], map[], map[];
    }
  }
}
