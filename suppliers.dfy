/** The supplier routes (`/v1/proveedores`) with the HTTP layer taken off:
    supplier create / list / get / partial update / delete, and the catalog
    links of a supplier (upsert, list, delete). Each route is a method over the
    shared store; a new record's id is a parameter. */
module SupplierRoutes {
  import opened Common
  import opened Domain
  import opened Text
  import opened Listing
  import opened Store

  // ---------------------------------------------------------------- payloads

  /** The body of a create request, after validation; absent optional fields are `None`. */
  datatype SupplierCreate = SupplierCreate(
    nombre: string,
    tipoDePersona: PersonType,
    documento: string,
    tipoDocumento: DocumentType,
    pais: string,
    direccion: Option<string>,
    telefono: Option<string>,
    email: Option<string>,
    paginaWeb: Option<string>,
    activo: Option<bool>)

  /** The record a create request stores: absent fields are left out of the
      insert, so `activo` takes the column default, true. */
  function NewSupplier(id: Uuid, p: SupplierCreate): (s: Supplier)
    ensures s.id == id && s.documento == p.documento && s.pais == p.pais
    ensures s.activo == (p.activo != Some(false))
  {
    Supplier(id, p.nombre, p.tipoDePersona, p.documento, p.tipoDocumento, p.pais,
             p.direccion, p.telefono, p.email, p.paginaWeb,
             match p.activo case Some(a) => a case None => true)
  }

  /** A partial update: `Some` for each field that was sent with a non-null value. */
  datatype SupplierPatch = SupplierPatch(
    nombre: Option<string>,
    tipoDePersona: Option<PersonType>,
    documento: Option<string>,
    tipoDocumento: Option<DocumentType>,
    pais: Option<string>,
    direccion: Option<string>,
    telefono: Option<string>,
    email: Option<string>,
    paginaWeb: Option<string>,
    activo: Option<bool>)

  const NoChanges := SupplierPatch(None, None, None, None, None, None, None, None, None, None)

  /** The value sent, or the current one when nothing was sent. */
  function Pick<T>(sent: Option<T>, current: T): T
  {
    match sent
    case Some(v) => v
    case None => current
  }

  /** The same, for a field that may hold null: a sent value replaces it. */
  function PickOpt<T>(sent: Option<T>, current: Option<T>): Option<T>
  {
    if sent.Some? then sent else current
  }

  /** The supplier after a patch: each field sent replaces the stored one. */
  function Patched(s: Supplier, p: SupplierPatch): Supplier
  {
    Supplier(s.id, Pick(p.nombre, s.nombre), Pick(p.tipoDePersona, s.tipoDePersona),
             Pick(p.documento, s.documento), Pick(p.tipoDocumento, s.tipoDocumento),
             Pick(p.pais, s.pais), PickOpt(p.direccion, s.direccion),
             PickOpt(p.telefono, s.telefono), PickOpt(p.email, s.email),
             PickOpt(p.paginaWeb, s.paginaWeb), Pick(p.activo, s.activo))
  }

  /** Two patches sent one after the other: the later one wins field by field. */
  function Then(p: SupplierPatch, q: SupplierPatch): SupplierPatch
  {
    SupplierPatch(PickOpt(q.nombre, p.nombre), PickOpt(q.tipoDePersona, p.tipoDePersona),
                  PickOpt(q.documento, p.documento), PickOpt(q.tipoDocumento, p.tipoDocumento),
                  PickOpt(q.pais, p.pais), PickOpt(q.direccion, p.direccion),
                  PickOpt(q.telefono, p.telefono), PickOpt(q.email, p.email),
                  PickOpt(q.paginaWeb, p.paginaWeb), PickOpt(q.activo, p.activo))
  }

  /** A field that was not sent keeps its value; a field that was sent takes it. */
  lemma PatchTouchesOnlySentFields(s: Supplier, p: SupplierPatch)
    ensures var r := Patched(s, p);
            && r.id == s.id
            && (p.nombre.None? ==> r.nombre == s.nombre) && (p.nombre.Some? ==> r.nombre == p.nombre.value)
            && (p.tipoDePersona.None? ==> r.tipoDePersona == s.tipoDePersona)
            && (p.tipoDePersona.Some? ==> r.tipoDePersona == p.tipoDePersona.value)
            && (p.documento.None? ==> r.documento == s.documento) && (p.documento.Some? ==> r.documento == p.documento.value)
            && (p.tipoDocumento.None? ==> r.tipoDocumento == s.tipoDocumento)
            && (p.tipoDocumento.Some? ==> r.tipoDocumento == p.tipoDocumento.value)
            && (p.pais.None? ==> r.pais == s.pais) && (p.pais.Some? ==> r.pais == p.pais.value)
            && (p.direccion.None? ==> r.direccion == s.direccion) && (p.direccion.Some? ==> r.direccion == p.direccion)
            && (p.telefono.None? ==> r.telefono == s.telefono) && (p.telefono.Some? ==> r.telefono == p.telefono)
            && (p.email.None? ==> r.email == s.email) && (p.email.Some? ==> r.email == p.email)
            && (p.paginaWeb.None? ==> r.paginaWeb == s.paginaWeb) && (p.paginaWeb.Some? ==> r.paginaWeb == p.paginaWeb)
            && (p.activo.None? ==> r.activo == s.activo) && (p.activo.Some? ==> r.activo == p.activo.value)
  {
  }

  lemma NoChangesIsIdentity(s: Supplier)
    ensures Patched(s, NoChanges) == s
  {
  }

  /** Sending the same patch twice has the effect of sending it once. */
  lemma PatchIdempotent(s: Supplier, p: SupplierPatch)
    ensures Patched(Patched(s, p), p) == Patched(s, p)
  {
  }

  lemma PatchesCompose(s: Supplier, p: SupplierPatch, q: SupplierPatch)
    ensures Patched(Patched(s, p), q) == Patched(s, Then(p, q))
  {
  }

  /** The body of a link upsert; `activo` defaults to true when not sent. */
  datatype LinkPayload = LinkPayload(
    productoId: Uuid,
    skuProveedor: Option<string>,
    precio: Option<real>,
    moneda: Option<string>,
    leadTimeDias: Option<int>,
    loteMinimo: Option<int>,
    activo: bool)

  /** The link a payload describes for a supplier. */
  function LinkFrom(proveedorId: Uuid, p: LinkPayload): (l: CatalogLink)
    ensures l.proveedorId == proveedorId && l.productoId == p.productoId
  {
    CatalogLink(proveedorId, p.productoId, p.skuProveedor, p.precio, p.moneda,
                p.leadTimeDias, p.loteMinimo, p.activo)
  }

  // ---------------------------------------------------------------- uniqueness

  /** Some stored supplier other than `except` already has (documento, pais). */
  predicate DocumentTaken(suppliers: map<Uuid, Supplier>, documento: string, pais: string, except: Option<Uuid>)
  {
    exists k :: k in suppliers && except != Some(k)
                && suppliers[k].documento == documento && suppliers[k].pais == pais
  }

  /** A patch that sends documento or pais collides, on the merged pair, with another supplier. */
  predicate UpdateConflicts(suppliers: map<Uuid, Supplier>, id: Uuid, p: SupplierPatch)
    requires id in suppliers
  {
    && (p.documento.Some? || p.pais.Some?)
    && DocumentTaken(suppliers, Pick(p.documento, suppliers[id].documento), Pick(p.pais, suppliers[id].pais), Some(id))
  }

  /** Re-sending a supplier's own (documento, pais) never conflicts: the check
      skips the record being updated. */
  lemma ResendingOwnDocumentIsNoConflict(suppliers: map<Uuid, Supplier>, id: Uuid, p: SupplierPatch)
    requires SuppliersValid(suppliers) && id in suppliers
    requires p.documento == Some(suppliers[id].documento) && p.pais == Some(suppliers[id].pais)
    ensures !UpdateConflicts(suppliers, id, p)
  {
    if UpdateConflicts(suppliers, id, p) {
      var k :| k in suppliers && Some(id) != Some(k)
               && suppliers[k].documento == suppliers[id].documento && suppliers[k].pais == suppliers[id].pais;
      assert SameDocument(suppliers[k], suppliers[id]);
      assert false;
    }
  }

  /** A patch sending neither documento nor pais is never checked for conflicts. */
  lemma NoIdentityChangeNoCheck(suppliers: map<Uuid, Supplier>, id: Uuid, p: SupplierPatch)
    requires id in suppliers && p.documento.None? && p.pais.None?
    ensures !UpdateConflicts(suppliers, id, p)
  {
  }

  // ---------------------------------------------------------------- listing orders and filters

  function ByNombre(a: Supplier, b: Supplier): bool
  {
    NameLe(a.nombre, b.nombre)
  }

  lemma ByNombreIsPreorder()
    ensures TotalPreorder(ByNombre)
  {
    forall a: Supplier, b: Supplier ensures ByNombre(a, b) || ByNombre(b, a) {
      NameLeTotal(a.nombre, b.nombre);
    }
    forall a: Supplier, b: Supplier, c: Supplier | ByNombre(a, b) && ByNombre(b, c) ensures ByNombre(a, c) {
      NameLeTransitive(a.nombre, b.nombre, c.nombre);
    }
  }

  /** The supplier listing filters that were given, all at once. */
  predicate SupplierMatches(s: Supplier, q: Option<string>, pais: Option<string>, activo: Option<bool>)
  {
    && (q.Some? && q.value != "" ==> Contains(s.nombre, Strip(q.value)) || Contains(s.documento, Strip(q.value)))
    && (pais.Some? && pais.value != "" ==> s.pais == pais.value)
    && (activo.Some? ==> s.activo == activo.value)
  }

  function MatchingSuppliers(suppliers: map<Uuid, Supplier>, q: Option<string>, pais: Option<string>, activo: Option<bool>)
    : set<Supplier>
  {
    set s | s in suppliers.Values && SupplierMatches(s, q, pais, activo)
  }

  function ByProducto(a: CatalogLink, b: CatalogLink): bool
  {
    a.productoId <= b.productoId
  }

  lemma ByProductoIsPreorder()
    ensures TotalPreorder(ByProducto)
  {
  }

  function MatchingLinks(links: map<(Uuid, Uuid), CatalogLink>, proveedorId: Uuid, activo: Option<bool>)
    : set<CatalogLink>
  {
    set l | l in links.Values && l.proveedorId == proveedorId && (activo.Some? ==> l.activo == activo.value)
  }

  /** A stored link sits at its own key. */
  lemma LinkAtItsKey(links: map<(Uuid, Uuid), CatalogLink>, l: CatalogLink)
    requires LinksKeyed(links) && l in links.Values
    ensures (l.proveedorId, l.productoId) in links && links[(l.proveedorId, l.productoId)] == l
  {
    var k :| k in links && links[k] == l;
  }

  /** Links in strictly ascending product order. */
  predicate ByProductoStrictly(s: seq<CatalogLink>)
  {
    forall i, j :: 0 <= i < j < |s| ==> s[i].productoId < s[j].productoId
  }

  /** A listing in strictly ascending product order is fully determined by the
      links it holds: there is no tie for the store to break. */
  lemma {:induction false} ByProductoListingIsUnique(a: seq<CatalogLink>, b: seq<CatalogLink>)
    requires ByProductoStrictly(a) && ByProductoStrictly(b)
    requires forall x :: x in a <==> x in b
    ensures a == b
    decreases |a|
  {
    assert a != [] ==> a[0] in b;
    assert b != [] ==> b[0] in a;
    if a != [] && b != [] {
      assert a[0] == b[0];
      forall x ensures x in a[1..] <==> x in b[1..] {
        if x in a[1..] {
          var k :| 1 <= k < |a| && a[k] == x;
          assert x in b;
          var m :| 0 <= m < |b| && b[m] == x;
          assert m != 0 && b[1..][m - 1] == x;
        }
        if x in b[1..] {
          var k :| 1 <= k < |b| && b[k] == x;
          assert x in a;
          var m :| 0 <= m < |a| && a[m] == x;
          assert m != 0 && a[1..][m - 1] == x;
        }
      }
      ByProductoListingIsUnique(a[1..], b[1..]);
      assert a == [a[0]] + a[1..] && b == [b[0]] + b[1..];
    }
  }

  // ---------------------------------------------------------------- routes

  /** `crear_proveedor`: refused when (documento, pais) is taken; otherwise one new record. */
  method CrearProveedor(db: Db, payload: SupplierCreate, newId: Uuid) returns (r: Result<Supplier>)
    requires db.Valid()
    requires newId !in db.suppliers
    modifies db`suppliers
    ensures db.Valid()
    ensures DocumentTaken(old(db.suppliers), payload.documento, payload.pais, None) ==>
              r == Err(DocumentConflict) && db.suppliers == old(db.suppliers)
    ensures !DocumentTaken(old(db.suppliers), payload.documento, payload.pais, None) ==>
              && r == Ok(NewSupplier(newId, payload))
              && db.suppliers == old(db.suppliers)[newId := r.value]
              && db.suppliers.Keys == old(db.suppliers).Keys + {newId}
  {
    if exists k :: k in db.suppliers && db.suppliers[k].documento == payload.documento && db.suppliers[k].pais == payload.pais {
      return Err(DocumentConflict);
    }
    var obj := NewSupplier(newId, payload);
    db.suppliers := db.suppliers[newId := obj];
    r := Ok(obj);
  }

  /** `listar_proveedores`: the suppliers that pass every filter given,
      ordered by name, then `offset` skipped and at most `limit` kept. */
  method ListarProveedores(db: Db, q: Option<string>, pais: Option<string>, activo: Option<bool>, limit: nat, offset: nat)
    returns (r: seq<Supplier>)
    requires 1 <= limit <= 200
    requires pais.Some? ==> |pais.value| == 2
    ensures |r| <= limit
    ensures exists all ::
              && Arranges(all, MatchingSuppliers(db.suppliers, q, pais, activo), ByNombre)
              && r == Page(all, offset, limit)
  {
    var rows := Rows(db.suppliers.Values);
    if q.Some? && q.value != "" {
      var like := Strip(q.value);
      rows := Filter(rows, (s: Supplier) => Contains(s.nombre, like) || Contains(s.documento, like));
    }
    if pais.Some? && pais.value != "" {
      var c := pais.value;
      rows := Filter(rows, (s: Supplier) => s.pais == c);
    }
    if activo.Some? {
      var a := activo.value;
      rows := Filter(rows, (s: Supplier) => s.activo == a);
    }
    rows := SortBy(rows, ByNombre);
    ByNombreIsPreorder();
    assert Arranges(rows, MatchingSuppliers(db.suppliers, q, pais, activo), ByNombre);
    r := Page(rows, offset, limit);
  }

  /** `obtener_proveedor`: the stored record, or not-found. */
  method ObtenerProveedor(db: Db, id: Uuid) returns (r: Result<Supplier>)
    ensures id in db.suppliers ==> r == Ok(db.suppliers[id])
    ensures id !in db.suppliers ==> r == Err(SupplierNotFound)
  {
    if id !in db.suppliers {
      return Err(SupplierNotFound);
    }
    r := Ok(db.suppliers[id]);
  }

  /** `actualizar_proveedor`: not-found, or a (documento, pais) conflict with
      another supplier, or every sent field applied and nothing else changed. */
  method ActualizarProveedor(db: Db, id: Uuid, patch: SupplierPatch) returns (r: Result<Supplier>)
    requires db.Valid()
    modifies db`suppliers
    ensures db.Valid()
    ensures id !in old(db.suppliers) ==> r == Err(SupplierNotFound)
    ensures id in old(db.suppliers) && UpdateConflicts(old(db.suppliers), id, patch) ==> r == Err(DocumentConflict)
    ensures id in old(db.suppliers) && !UpdateConflicts(old(db.suppliers), id, patch) ==>
              r == Ok(Patched(old(db.suppliers)[id], patch))
    ensures r.Ok? ==> db.suppliers == old(db.suppliers)[id := r.value]
    ensures r.Err? ==> db.suppliers == old(db.suppliers)
  {
    if id !in db.suppliers {
      return Err(SupplierNotFound);
    }
    var current := db.suppliers[id];
    if patch.documento.Some? || patch.pais.Some? {
      var doc := Pick(patch.documento, current.documento);
      var pais := Pick(patch.pais, current.pais);
      if exists k :: k in db.suppliers && k != id && db.suppliers[k].documento == doc && db.suppliers[k].pais == pais {
        return Err(DocumentConflict);
      }
    }
    var obj := ApplyPatch(current, patch);
    UpdateKeepsSuppliersValid(db.suppliers, id, patch);
    db.suppliers := db.suppliers[id := obj];
    r := Ok(obj);
  }

  /** The `setattr` loop of `actualizar_proveedor`: each field sent overwrites the record's. */
  method ApplyPatch(s: Supplier, patch: SupplierPatch) returns (obj: Supplier)
    ensures obj == Patched(s, patch)
  {
    obj := s;
    obj := obj.(nombre := Pick(patch.nombre, obj.nombre));
    obj := obj.(tipoDePersona := Pick(patch.tipoDePersona, obj.tipoDePersona));
    obj := obj.(documento := Pick(patch.documento, obj.documento));
    obj := obj.(tipoDocumento := Pick(patch.tipoDocumento, obj.tipoDocumento));
    obj := obj.(pais := Pick(patch.pais, obj.pais));
    obj := obj.(direccion := PickOpt(patch.direccion, obj.direccion));
    obj := obj.(telefono := PickOpt(patch.telefono, obj.telefono));
    obj := obj.(email := PickOpt(patch.email, obj.email));
    obj := obj.(paginaWeb := PickOpt(patch.paginaWeb, obj.paginaWeb));
    obj := obj.(activo := Pick(patch.activo, obj.activo));
  }

  /** An update that passed the conflict check keeps (documento, pais) unique. */
  lemma UpdateKeepsSuppliersValid(suppliers: map<Uuid, Supplier>, id: Uuid, p: SupplierPatch)
    requires SuppliersValid(suppliers) && id in suppliers
    requires !UpdateConflicts(suppliers, id, p)
    ensures SuppliersValid(suppliers[id := Patched(suppliers[id], p)])
  {
    var s := suppliers[id];
    var n := Patched(s, p);
    var m := suppliers[id := n];
    forall a, b | a in m && b in m && a != b ensures !SameDocument(m[a], m[b]) {
      if a == id || b == id {
        var other := if a == id then b else a;
        if p.documento.None? && p.pais.None? {
          assert SameDocument(n, s) && !SameDocument(s, suppliers[other]);
        } else {
          assert !(other in suppliers && Some(id) != Some(other)
                   && suppliers[other].documento == n.documento && suppliers[other].pais == n.pais);
        }
      }
    }
  }

  /** `eliminar_proveedor`: not-found, or the supplier removed together with
      its catalog links. The store refuses while orders still reference it. */
  method EliminarProveedor(db: Db, id: Uuid) returns (r: Result<()>)
    requires db.Valid()
    modifies db`suppliers, db`links
    ensures db.Valid()
    ensures id !in old(db.suppliers) ==> r == Err(SupplierNotFound)
    ensures id in old(db.suppliers) && (exists k :: k in db.orders && db.orders[k].proveedorId == id) ==>
              r == Err(SupplierHasOrders)
    ensures id in old(db.suppliers) && !(exists k :: k in db.orders && db.orders[k].proveedorId == id) ==>
              r == Ok(())
    ensures r.Err? ==> db.suppliers == old(db.suppliers) && db.links == old(db.links)
    ensures r.Ok? ==>
              && id in old(db.suppliers)
              && db.suppliers == old(db.suppliers) - {id}
              && db.links == map k | k in old(db.links) && k.0 != id :: old(db.links)[k]
  {
    if id !in db.suppliers {
      return Err(SupplierNotFound);
    }
    if exists k :: k in db.orders && db.orders[k].proveedorId == id {
      return Err(SupplierHasOrders);
    }
    DeleteKeepsStoreValid(db.suppliers, db.links, db.orders, id);
    db.links := map k | k in db.links && k.0 != id :: db.links[k];
    db.suppliers := db.suppliers - {id};
    r := Ok(());
  }

  /** Removing a supplier that no order references, together with its links,
      leaves every table valid. */
  lemma DeleteKeepsStoreValid(suppliers: map<Uuid, Supplier>, links: map<(Uuid, Uuid), CatalogLink>,
                              orders: map<Uuid, PurchaseOrder>, id: Uuid)
    requires SuppliersValid(suppliers) && LinksValid(links, suppliers) && OrdersValid(orders, suppliers)
    requires forall k :: k in orders ==> orders[k].proveedorId != id
    ensures var rest := suppliers - {id};
            && SuppliersValid(rest)
            && LinksValid(map k | k in links && k.0 != id :: links[k], rest)
            && OrdersValid(orders, rest)
  {
  }

  /** `asociar_producto`: with an existing supplier, the (supplier, product)
      link is overwritten in place when present and inserted otherwise. */
  method AsociarProducto(db: Db, proveedorId: Uuid, payload: LinkPayload) returns (r: Result<CatalogLink>)
    requires db.Valid()
    modifies db`links
    ensures db.Valid()
    ensures proveedorId !in db.suppliers ==> r == Err(SupplierNotFound) && db.links == old(db.links)
    ensures proveedorId in db.suppliers ==>
              && r == Ok(LinkFrom(proveedorId, payload))
              && db.links == old(db.links)[(proveedorId, payload.productoId) := r.value]
    ensures proveedorId in db.suppliers && (proveedorId, payload.productoId) in old(db.links) ==>
              db.links.Keys == old(db.links).Keys
    ensures proveedorId in db.suppliers && (proveedorId, payload.productoId) !in old(db.links) ==>
              db.links.Keys == old(db.links).Keys + {(proveedorId, payload.productoId)}
  {
    if proveedorId !in db.suppliers {
      return Err(SupplierNotFound);
    }
    var key := (proveedorId, payload.productoId);
    var rel: CatalogLink;
    if key in db.links {
      rel := db.links[key];
      rel := rel.(skuProveedor := payload.skuProveedor, precio := payload.precio, moneda := payload.moneda,
                  leadTimeDias := payload.leadTimeDias, loteMinimo := payload.loteMinimo, activo := payload.activo);
    } else {
      rel := LinkFrom(proveedorId, payload);
    }
    db.links := db.links[key := rel];
    r := Ok(rel);
  }

  /** `listar_productos_de_proveedor`: not-found for an unknown supplier;
      otherwise exactly its links (optionally only active or inactive ones),
      by product id ascending. */
  method ListarProductosDeProveedor(db: Db, proveedorId: Uuid, activo: Option<bool>)
    returns (r: Result<seq<CatalogLink>>)
    requires db.Valid()
    ensures proveedorId !in db.suppliers ==> r == Err(SupplierNotFound)
    ensures proveedorId in db.suppliers ==>
              && r.Ok?
              && Arranges(r.value, MatchingLinks(db.links, proveedorId, activo), ByProducto)
              && ByProductoStrictly(r.value)
  {
    if proveedorId !in db.suppliers {
      return Err(SupplierNotFound);
    }
    var rows := Rows(db.links.Values);
    rows := Filter(rows, (l: CatalogLink) => l.proveedorId == proveedorId);
    if activo.Some? {
      var a := activo.value;
      rows := Filter(rows, (l: CatalogLink) => l.activo == a);
    }
    rows := SortBy(rows, ByProducto);
    ByProductoIsPreorder();
    forall i, j | 0 <= i < j < |rows| ensures rows[i].productoId < rows[j].productoId {
      LinkAtItsKey(db.links, rows[i]);
      LinkAtItsKey(db.links, rows[j]);
    }
    r := Ok(rows);
  }

  /** `desasociar_producto`: exactly the keyed link removed, or not-found. */
  method DesasociarProducto(db: Db, proveedorId: Uuid, productoId: Uuid) returns (r: Result<()>)
    requires db.Valid()
    modifies db`links
    ensures db.Valid()
    ensures (proveedorId, productoId) !in old(db.links) ==> r == Err(LinkNotFound) && db.links == old(db.links)
    ensures (proveedorId, productoId) in old(db.links) ==>
              r == Ok(()) && db.links == old(db.links) - {(proveedorId, productoId)}
  {
    var key := (proveedorId, productoId);
    if key !in db.links {
      return Err(LinkNotFound);
    }
    db.links := db.links - {key};
    r := Ok(());
  }
}
