/**
 * The purchase-suggestion records shared by the order, admin and import code:
 * a suggestion lot (`SugeridoLote`), its lines (`SugeridoLinea`), the supplier
 * (`Proveedor`) and the ICG purchase order written for a lot.
 *
 * The model classes themselves are not in `Compras/models.py`; their fields are
 * the ones the services read and write.
 */
module Lineas {
  import opened Resultados
  import opened Textos

  // Line states (`SugeridoLinea.EstadoLinea`), compared as text by the admin.
  const APROBADA := "APROBADA"
  const ORDENADA := "ORDENADA"
  const RESPONDIDA := "RESPONDIDA"

  // Lot states (`SugeridoLote.Estado`).
  const PENDIENTE := "PENDIENTE"
  const ENVIADO := "ENVIADO"
  const CONFIRMADO := "CONFIRMADO"
  const COMPLETADO := "COMPLETADO"

  datatype Proveedor = Proveedor(id: int, nombre: string, codIcg: Option<string>, codigo: Option<string>)

  /**
   * One line of a lot. `iva` is the lower-case attribute some callers look up
   * first and `ivaMayus` the `IVA` column the import fills.
   */
  datatype SugeridoLinea = SugeridoLinea(
    id: int,
    lote: int,
    proveedor: Option<int>,
    codAlmacen: string,
    nombreAlmacen: Option<string>,
    codigoArticulo: string,
    descripcion: Option<string>,
    referencia: Option<string>,
    clasificacion: Option<string>,
    clasificacionOriginal: Option<string>,
    embalaje: Option<int>,
    ultimoCosto: Option<real>,
    sugeridoBase: Option<real>,
    sugeridoCalculado: Option<real>,
    sugeridoInterno: Option<real>,
    nuevoSugeridoProv: Option<real>,
    descuento1: Option<real>,
    descuento2: Option<real>,
    descuento3: Option<real>,
    iva: Option<real>,
    ivaMayus: Option<real>,
    estadoLinea: Option<string>,
    continuidadActivo: bool,
    nuevoNombreProv: Option<string>,
    observacionesProv: Option<string>)

  /** `f"-{numserie}-{numpedido}"`, the supplier-order reference of an ICG order. */
  function Supedido(numserie: string, numpedido: int): string
  {
    "-" + numserie + "-" + IntATexto(numpedido)
  }

  /** The summary of one ICG purchase order, as stored in the lot's `pedidos_icg`. */
  datatype PedidoCreado = PedidoCreado(
    codAlmacen: string,
    numserie: string,
    numpedido: int,
    subserie: string,
    totBruto: real,
    totImpuestos: real,
    totNeto: real)
  {
    /** The `supedido` entry, derived from the series and number. */
    function SuPedido(): string
    {
      Supedido(numserie, numpedido)
    }
  }

  datatype SugeridoLote = SugeridoLote(
    id: int,
    proveedor: Option<Proveedor>,
    estado: string,
    pedidosIcg: seq<PedidoCreado>)

  /** The lines of `lineas` whose id is in `ids` become ORDENADA; nothing else changes. */
  function MarcarOrdenadas(lineas: seq<SugeridoLinea>, ids: seq<int>): (r: seq<SugeridoLinea>)
    ensures |r| == |lineas|
    ensures forall i :: 0 <= i < |lineas| ==>
      r[i] == (if lineas[i].id in ids then lineas[i].(estadoLinea := Some(ORDENADA)) else lineas[i])
  {
    seq(|lineas|, i requires 0 <= i < |lineas| =>
      if lineas[i].id in ids then lineas[i].(estadoLinea := Some(ORDENADA)) else lineas[i])
  }
}
