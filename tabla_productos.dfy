/** src/components/Productos/TablaProductos.jsx: the product table. A row's state badge,
    suggestion cell and action buttons depend only on the product; the table itself
    remembers which product a dialog is open for. */
module TablaProductos {
  import opened Wrappers
  import opened Text
  import opened ProductosContext

  const GRIS: string := "bg-gray-100 text-gray-800 border-gray-200"

  /** The state badge: color, whether it has an icon, and its text. */
  datatype EstadoInfo = EstadoInfo(color: string, conIcono: bool, texto: string)

  /** How a template literal renders a possibly null confidence. */
  function ConfianzaTexto(confianza: Option<int>): (r: string)
    ensures confianza.None? ==> r == "null"
    ensures confianza.Some? ==> r == IntToString(confianza.value)
  {
    match confianza
    case None => "null"
    case Some(c) => IntToString(c)
  }

  /** `getEstadoInfo`: the four known states have an icon and a label; the low
      confidence label carries the confidence; any other state is shown gray, with no
      icon, under its own name. */
  function EstadoInfoDe(estado: string, confianza: Option<int>): (r: EstadoInfo)
    ensures r.conIcono <==> estado in {"Pendiente", "Baja_Confianza", "Homologado", "Para_Creacion"}
    ensures !r.conIcono ==> r.texto == estado && r.color == GRIS
    ensures estado == "Baja_Confianza" ==>
              r.texto == "Baja Confianza (" + ConfianzaTexto(confianza) + "%)"
    ensures estado in {"Pendiente", "Homologado"} ==> r.texto == estado
  {
    match estado
    case "Pendiente" => EstadoInfo(GRIS, true, "Pendiente")
    case "Baja_Confianza" =>
      EstadoInfo("bg-yellow-100 text-yellow-800 border-yellow-200", true,
                 "Baja Confianza (" + ConfianzaTexto(confianza) + "%)")
    case "Homologado" => EstadoInfo("bg-green-100 text-green-800 border-green-200", true, "Homologado")
    case "Para_Creacion" => EstadoInfo("bg-purple-100 text-purple-800 border-purple-200", true, "Para Creación")
    case _ => EstadoInfo(GRIS, false, estado)
  }

  /** The buttons and badges of a row's action cell. */
  datatype Acciones = Acciones(
    buscarIA: bool, revisar: bool, crearNuevo: bool, badgeCompletado: bool, badgeCreacion: bool)

  function AccionesDe(estado: string): (a: Acciones)
    ensures a.buscarIA <==> estado == "Pendiente"
    ensures a.revisar <==> estado in {"Pendiente", "Baja_Confianza"}
    ensures a.crearNuevo <==> estado in {"Pendiente", "Baja_Confianza"}
    ensures a.badgeCompletado <==> estado == "Homologado"
    ensures a.badgeCreacion <==> estado == "Para_Creacion"
  {
    var abierto := estado == "Pendiente" || estado == "Baja_Confianza";
    Acciones(estado == "Pendiente", abierto, abierto, estado == "Homologado", estado == "Para_Creacion")
  }

  /** A row with a badge has no button, and every row with a button may still be
      marked for creation. */
  lemma BadgeSinBotones(estado: string)
    ensures var a := AccionesDe(estado);
            (a.badgeCompletado || a.badgeCreacion) ==> !a.buscarIA && !a.revisar && !a.crearNuevo
    ensures var a := AccionesDe(estado);
            (a.buscarIA || a.revisar) ==> a.crearNuevo
  {
  }

  /** What the suggestion column shows. */
  datatype CeldaSugerencia = Sugerida(s: SugerenciaProducto) | Confirmado(codigo: string) | SinProcesar

  /** The suggestion wins over an assigned code; an empty code counts as none. */
  function CeldaSugerenciaDe(p: Producto): (c: CeldaSugerencia)
    ensures p.sugerenciaIA.Some? <==> c.Sugerida?
    ensures c.Sugerida? ==> c.s == p.sugerenciaIA.value
    ensures c.Confirmado? <==> p.sugerenciaIA.None? && p.codigoAsignado.Some? && p.codigoAsignado.value != ""
    ensures c.Confirmado? ==> Some(c.codigo) == p.codigoAsignado
  {
    if p.sugerenciaIA.Some? then Sugerida(p.sugerenciaIA.value)
    else if p.codigoAsignado.Some? && p.codigoAsignado.value != "" then Confirmado(p.codigoAsignado.value)
    else SinProcesar
  }

  /** Confirming a product that already carries a suggestion does not change its
      suggestion cell: the old suggestion stays on screen and the assigned code is
      never shown. Products without one show the confirmed code. */
  lemma ConfirmarNoMuestraCodigo(ps: seq<Producto>, id: int, codigo: string, i: nat)
    requires i < |ps| && ps[i].id == id
    ensures ps[i].sugerenciaIA.Some? ==>
              CeldaSugerenciaDe(Homologar(ps, id, codigo)[i]) == CeldaSugerenciaDe(ps[i])
    ensures ps[i].sugerenciaIA.None? && codigo != "" ==>
              CeldaSugerenciaDe(Homologar(ps, id, codigo)[i]) == Confirmado(codigo)
  {
  }

  /** On the starting products: confirming product 3 with the top suggestion still
      shows the suggestion it had before, 'BMC-AZ-001'. */
  lemma Producto3MuestraSugerenciaVieja()
    ensures CeldaSugerenciaDe(Homologar(ProductosDemo(), 3, "BMC-AR-001")[2]).Sugerida?
    ensures CeldaSugerenciaDe(Homologar(ProductosDemo(), 3, "BMC-AR-001")[2]).s.codigo == "BMC-AZ-001"
  {
    ConfirmarNoMuestraCodigo(ProductosDemo(), 3, "BMC-AR-001", 2);
  }

  /** After either update the row has no action button left. */
  lemma SinBotonesTrasActualizar(ps: seq<Producto>, id: int, codigo: string, notas: string, i: nat)
    requires i < |ps| && ps[i].id == id
    ensures var a := AccionesDe(Homologar(ps, id, codigo)[i].estadoHomologacion);
            !a.buscarIA && !a.revisar && !a.crearNuevo && a.badgeCompletado
    ensures var a := AccionesDe(MarcarCreacion(ps, id, notas)[i].estadoHomologacion);
            !a.buscarIA && !a.revisar && !a.crearNuevo && a.badgeCreacion
  {
  }

  /** The table's own state: two dialog flags and the product they are about. */
  class Vista {
    var mostrarSugerencias: bool
    var mostrarCreacion: bool
    var productoActual: Option<Producto>

    constructor()
      ensures !mostrarSugerencias && !mostrarCreacion && productoActual.None?
    {
      mostrarSugerencias := false;
      mostrarCreacion := false;
      productoActual := None;
    }

    /** A dialog is rendered only when its flag is set and a product is chosen. */
    predicate SugerenciasVisible()
      reads this
    {
      mostrarSugerencias && productoActual.Some?
    }

    predicate CreacionVisible()
      reads this
    {
      mostrarCreacion && productoActual.Some?
    }

    /** `handleBuscarConIA`: the product becomes current and selected, the suggestions
        are fetched and the suggestion dialog opens. */
    method BuscarConIA(ctx: Registro, p: Producto)
      modifies this, ctx
      ensures productoActual == Some(p) && SugerenciasVisible()
      ensures mostrarCreacion == old(mostrarCreacion)
      ensures ctx.productoSeleccionado == Some(p) && ctx.sugerenciasIA == SugerenciasDemo()
      ensures ctx.productos == old(ctx.productos) && ctx.mensaje == old(ctx.mensaje) && !ctx.cargando
    {
      productoActual := Some(p);
      ctx.SeleccionarProducto(Some(p));
      var _ := ctx.ObtenerSugerenciasIA(p.descripcionOriginal);
      mostrarSugerencias := true;
    }

    /** `handleMarcarParaCreacion`: the product becomes current and selected, and the
        creation dialog opens; nothing is marked yet. */
    method MarcarParaCreacion(ctx: Registro, p: Producto)
      modifies this, ctx
      ensures productoActual == Some(p) && CreacionVisible()
      ensures mostrarSugerencias == old(mostrarSugerencias)
      ensures ctx.productoSeleccionado == Some(p)
      ensures ctx.productos == old(ctx.productos) && ctx.sugerenciasIA == old(ctx.sugerenciasIA)
      ensures ctx.mensaje == old(ctx.mensaje) && ctx.cargando == old(ctx.cargando)
    {
      productoActual := Some(p);
      ctx.SeleccionarProducto(Some(p));
      mostrarCreacion := true;
    }

    /** The suggestion dialog's `onClose`: it clears the current product too, so
        neither dialog stays visible. */
    method CerrarSugerencias()
      modifies this
      ensures !mostrarSugerencias && productoActual.None? && mostrarCreacion == old(mostrarCreacion)
      ensures !SugerenciasVisible() && !CreacionVisible()
    {
      mostrarSugerencias := false;
      productoActual := None;
    }

    /** The creation dialog's `onClose`. */
    method CerrarCreacion()
      modifies this
      ensures !mostrarCreacion && productoActual.None? && mostrarSugerencias == old(mostrarSugerencias)
      ensures !SugerenciasVisible() && !CreacionVisible()
    {
      mostrarCreacion := false;
      productoActual := None;
    }
  }
}
