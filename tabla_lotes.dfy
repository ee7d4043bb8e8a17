/** src/components/Facturas/TablaLotes.jsx: the batch table. Each row shows a fixed
    set of buttons chosen by the batch's state, format and error count; the three
    detail handlers open exactly one of three dialogs once the batch detail has been
    fetched. */
module TablaLotes {
  import opened Wrappers
  import opened Api
  import FacturasContext
  import BackendMain
  import BackendApp

  /** `obtenerIconoTipoArchivo`: unknown formats get the folder icon. */
  function IconoFormato(formato: string): (r: string)
    ensures formato !in {"xml", "csv_excel", "txt_plano", "plantilla51"} ==> r == "📁"
    ensures formato in {"xml", "csv_excel", "txt_plano", "plantilla51"} ==> r != "📁"
  {
    match formato
    case "xml" => "📄"
    case "csv_excel" => "📊"
    case "txt_plano" => "📝"
    case "plantilla51" => "📋"
    case _ => "📁"
  }

  /** `obtenerNombreFormato`: unknown formats are shown as they are. */
  function NombreFormato(formato: string): (r: string)
    ensures formato !in {"xml", "csv_excel", "txt_plano", "plantilla51"} ==> r == formato
    ensures r == "" ==> formato == ""
  {
    match formato
    case "xml" => "XML (Facturas)"
    case "csv_excel" => "CSV/Excel"
    case "txt_plano" => "Texto Plano"
    case "plantilla51" => "Plantilla 51"
    case _ => formato
  }

  const GRIS: string := "bg-gray-100 text-gray-800"

  /** `getEstadoColor`: the five known states have their own color, every other one
      is gray. */
  function ColorEstado(estado: string): (r: string)
    ensures r == GRIS <==> estado !in {"Completado", "Completado con Advertencias", "Error", "Procesando", "Validando"}
  {
    match estado
    case "Completado" => "bg-green-100 text-green-800"
    case "Completado con Advertencias" => "bg-yellow-100 text-yellow-800"
    case "Error" => "bg-red-100 text-red-800"
    case "Procesando" => "bg-blue-100 text-blue-800"
    case "Validando" => "bg-purple-100 text-purple-800"
    case _ => GRIS
  }

  /** `puedeDescargar`. */
  predicate PuedeDescargar(estado: string)
    ensures PuedeDescargar(estado) ==> estado != "Procesando" && estado != "Error"
  {
    estado == "Completado" || estado == "Completado con Advertencias"
  }

  /** The buttons a row shows. */
  datatype Botones = Botones(detalles: bool, errores: bool, mapeo: bool, descargar: bool)

  function BotonesDe(l: Lote): (b: Botones)
    ensures b.detalles
    ensures b.errores <==> l.errores > 0
    ensures b.mapeo <==> l.formato == "personalizado" && l.estado != "Completado"
    ensures b.descargar <==> l.estado in {"Completado", "Completado con Advertencias"}
  {
    Botones(true, l.errores > 0, l.formato == "personalizado" && l.estado != "Completado", PuedeDescargar(l.estado))
  }

  /** The table's download rule is the one of backend/main.py, and is looser than the
      one of backend/app/main.py. */
  lemma DescargaComoBackendMain(estado: string)
    ensures PuedeDescargar(estado) <==> BackendMain.PuedeDescargar(estado)
    ensures BackendApp.PuedeDescargar(estado) ==> PuedeDescargar(estado)
  {
  }

  /** After a manual mapping the batch is 'Procesando': its Mapeo button stays and it
      cannot be downloaded. */
  lemma MapeoTrasContinuar(lotes: seq<Lote>, id: int, i: nat)
    requires i < |lotes| && lotes[i].id == id && lotes[i].formato == "personalizado"
    ensures var b := BotonesDe(FacturasContext.MarcarProcesando(lotes, id)[i]);
            b.mapeo && !b.descargar
  {
  }

  /** At most one of the three dialogs is open. */
  predicate UnModal(detalles: bool, errores: bool, mapeo: bool) {
    !(detalles && errores) && !(detalles && mapeo) && !(errores && mapeo)
  }

  datatype Modal = Detalles | Errores | Mapeo

  /** The table's own state: the three dialog flags. */
  class Vista {
    var mostrarDetalles: bool
    var mostrarErrores: bool
    var mostrarMapeo: bool

    predicate Valid()
      reads this
    {
      UnModal(mostrarDetalles, mostrarErrores, mostrarMapeo)
    }

    constructor()
      ensures !mostrarDetalles && !mostrarErrores && !mostrarMapeo && Valid()
    {
      mostrarDetalles := false;
      mostrarErrores := false;
      mostrarMapeo := false;
    }

    /** `handleVerDetalles`: once the detail is fetched, it is the context's selected
        batch, its errors are the context's error list, and only the detail dialog is
        open; a failed fetch leaves the selection and the dialogs as they were and
        shows the lookup error. */
    method VerDetalles(ctx: FacturasContext.Registro, loteId: int)
      requires Valid()
      modifies this, ctx
      ensures Valid()
      ensures 1 <= loteId <= 3 ==> mostrarDetalles && !mostrarErrores && !mostrarMapeo
      ensures !(1 <= loteId <= 3) ==>
                mostrarDetalles == old(mostrarDetalles) && mostrarErrores == old(mostrarErrores)
                && mostrarMapeo == old(mostrarMapeo)
      ensures ctx.lotes == old(ctx.lotes) && !ctx.cargando
      ensures 1 <= loteId <= 3 ==>
                ctx.loteSeleccionado.Some? && ctx.loteSeleccionado.value.lote == LotesMock()[loteId - 1]
                && ctx.errores == ctx.loteSeleccionado.value.errores && ctx.mensaje == old(ctx.mensaje)
      ensures !(1 <= loteId <= 3) ==>
                ctx.loteSeleccionado == old(ctx.loteSeleccionado) && ctx.errores == old(ctx.errores)
                && ctx.mensaje == Mensaje("error", "Error al obtener detalles: Lote no encontrado")
    {
      var r := ctx.VerDetalleLote(loteId);
      if r.Success? {
        mostrarDetalles := true;
        mostrarErrores := false;
        mostrarMapeo := false;
      }
    }

    /** `handleVerErrores`: as above, for the error dialog. */
    method VerErrores(ctx: FacturasContext.Registro, loteId: int)
      requires Valid()
      modifies this, ctx
      ensures Valid()
      ensures 1 <= loteId <= 3 ==> mostrarErrores && !mostrarDetalles && !mostrarMapeo
      ensures !(1 <= loteId <= 3) ==>
                mostrarDetalles == old(mostrarDetalles) && mostrarErrores == old(mostrarErrores)
                && mostrarMapeo == old(mostrarMapeo)
      ensures ctx.lotes == old(ctx.lotes) && !ctx.cargando
      ensures 1 <= loteId <= 3 ==>
                ctx.loteSeleccionado.Some? && ctx.loteSeleccionado.value.lote == LotesMock()[loteId - 1]
                && ctx.errores == ctx.loteSeleccionado.value.errores && ctx.mensaje == old(ctx.mensaje)
      ensures !(1 <= loteId <= 3) ==>
                ctx.loteSeleccionado == old(ctx.loteSeleccionado) && ctx.errores == old(ctx.errores)
                && ctx.mensaje == Mensaje("error", "Error al obtener detalles: Lote no encontrado")
    {
      var r := ctx.VerDetalleLote(loteId);
      if r.Success? {
        mostrarErrores := true;
        mostrarDetalles := false;
        mostrarMapeo := false;
      }
    }

    /** `handleMapeoManual`: as above, for the mapping dialog. */
    method VerMapeo(ctx: FacturasContext.Registro, loteId: int)
      requires Valid()
      modifies this, ctx
      ensures Valid()
      ensures 1 <= loteId <= 3 ==> mostrarMapeo && !mostrarDetalles && !mostrarErrores
      ensures !(1 <= loteId <= 3) ==>
                mostrarDetalles == old(mostrarDetalles) && mostrarErrores == old(mostrarErrores)
                && mostrarMapeo == old(mostrarMapeo)
      ensures ctx.lotes == old(ctx.lotes) && !ctx.cargando
      ensures 1 <= loteId <= 3 ==>
                ctx.loteSeleccionado.Some? && ctx.loteSeleccionado.value.lote == LotesMock()[loteId - 1]
                && ctx.errores == ctx.loteSeleccionado.value.errores && ctx.mensaje == old(ctx.mensaje)
      ensures !(1 <= loteId <= 3) ==>
                ctx.loteSeleccionado == old(ctx.loteSeleccionado) && ctx.errores == old(ctx.errores)
                && ctx.mensaje == Mensaje("error", "Error al obtener detalles: Lote no encontrado")
    {
      var r := ctx.VerDetalleLote(loteId);
      if r.Success? {
        mostrarMapeo := true;
        mostrarDetalles := false;
        mostrarErrores := false;
      }
    }

    /** A dialog's `onClose` (and the mapping dialog's `onContinuar`) clears its own
        flag only. */
    method Cerrar(cual: Modal)
      requires Valid()
      modifies this
      ensures Valid()
      ensures mostrarDetalles == (old(mostrarDetalles) && cual != Detalles)
      ensures mostrarErrores == (old(mostrarErrores) && cual != Errores)
      ensures mostrarMapeo == (old(mostrarMapeo) && cual != Mapeo)
    {
      match cual
      case Detalles => mostrarDetalles := false;
      case Errores => mostrarErrores := false;
      case Mapeo => mostrarMapeo := false;
    }
  }
}
