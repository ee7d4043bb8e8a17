/** src/components/Productos/ModalSugerenciasIA.jsx: the dialog listing the matcher's
    suggestions for one product. Each suggestion is colored by a confidence band; one
    suggestion can be selected (by its code) and confirmed, which homologates the
    product with that code. */
module ModalSugerencias {
  import opened Wrappers
  import opened Api
  import opened ProductosContext

  const VERDE: string := "text-green-600 bg-green-50"
  const AMARILLO: string := "text-yellow-600 bg-yellow-50"
  const NARANJA: string := "text-orange-600 bg-orange-50"
  const ROJO: string := "text-red-600 bg-red-50"

  /** `getColorConfianza`: four bands, with lower bounds 90, 75 and 60. */
  function ColorConfianza(confianza: int): (r: string)
    ensures r == VERDE <==> confianza >= 90
    ensures r == AMARILLO <==> 75 <= confianza < 90
    ensures r == NARANJA <==> 60 <= confianza < 75
    ensures r == ROJO <==> confianza < 60
  {
    if confianza >= 90 then VERDE
    else if confianza >= 75 then AMARILLO
    else if confianza >= 60 then NARANJA
    else ROJO
  }

  /** The rank of a color band, from red (0) to green (3). */
  function RangoColor(color: string): nat {
    if color == VERDE then 3 else if color == AMARILLO then 2 else if color == NARANJA then 1 else 0
  }

  /** A higher confidence never gets a worse band. */
  lemma ColorMonotono(a: int, b: int)
    requires a <= b
    ensures RangoColor(ColorConfianza(a)) <= RangoColor(ColorConfianza(b))
  {
  }

  /** The three icons of `getIconoConfianza`: a check, an information mark and a
      warning triangle. */
  datatype Icono = Check | Info | Advertencia

  function IconoConfianza(confianza: int): (r: Icono)
    ensures r == Check <==> confianza >= 90
    ensures r == Info <==> 75 <= confianza < 90
    ensures r == Advertencia <==> confianza < 75
  {
    if confianza >= 90 then Check else if confianza >= 75 then Info else Advertencia
  }

  /** Icon and color agree on the two upper bands; the warning icon covers both the
      orange and the red band. */
  lemma IconoYColor(confianza: int)
    ensures IconoConfianza(confianza) == Check <==> ColorConfianza(confianza) == VERDE
    ensures IconoConfianza(confianza) == Info <==> ColorConfianza(confianza) == AMARILLO
    ensures IconoConfianza(confianza) == Advertencia <==>
              ColorConfianza(confianza) == NARANJA || ColorConfianza(confianza) == ROJO
  {
  }

  /** The simulated suggestions show one green, two yellow and two orange badges, and
      no red one. */
  lemma BandasDemo()
    ensures ColorConfianza(SugerenciasDemo()[0].confianza) == VERDE
    ensures ColorConfianza(SugerenciasDemo()[1].confianza) == AMARILLO
    ensures ColorConfianza(SugerenciasDemo()[2].confianza) == AMARILLO
    ensures ColorConfianza(SugerenciasDemo()[3].confianza) == NARANJA
    ensures ColorConfianza(SugerenciasDemo()[4].confianza) == NARANJA
  {
  }

  /** The dialog's own state: the selected suggestion and the row whose details are
      unfolded. */
  class Dialogo {
    var sugerenciaSeleccionada: Option<SugerenciaIA>
    var mostrarDetalles: Option<nat>

    constructor()
      ensures sugerenciaSeleccionada.None? && mostrarDetalles.None?
      ensures !ConfirmarHabilitado(false)
    {
      sugerenciaSeleccionada := None;
      mostrarDetalles := None;
    }

    /** A row is highlighted when its code is the selected one. */
    predicate Resaltada(s: SugerenciaIA)
      reads this
    {
      sugerenciaSeleccionada.Some? && sugerenciaSeleccionada.value.codigo == s.codigo
    }

    /** The confirm button is enabled iff a suggestion is selected and nothing is
        loading. */
    predicate ConfirmarHabilitado(cargando: bool)
      reads this
      ensures ConfirmarHabilitado(cargando) ==> sugerenciaSeleccionada.Some? && Resaltada(sugerenciaSeleccionada.value)
    {
      sugerenciaSeleccionada.Some? && !cargando
    }

    /** Clicking a row selects it. */
    method Seleccionar(s: SugerenciaIA)
      modifies this
      ensures sugerenciaSeleccionada == Some(s) && Resaltada(s)
      ensures mostrarDetalles == old(mostrarDetalles)
    {
      sugerenciaSeleccionada := Some(s);
    }

    /** "Ver más" / "Ocultar": a second click on the same row folds it again, a click
        on another row moves the unfolded details there. */
    method AlternarDetalles(index: nat)
      modifies this
      ensures old(mostrarDetalles) == Some(index) ==> mostrarDetalles.None?
      ensures old(mostrarDetalles) != Some(index) ==> mostrarDetalles == Some(index)
      ensures sugerenciaSeleccionada == old(sugerenciaSeleccionada)
    {
      mostrarDetalles := if mostrarDetalles == Some(index) then None else Some(index);
    }

    /** `handleConfirmarMatch`: without a selection nothing happens; with one, the
        product is homologated with the selected code and the dialog closes. */
    method ConfirmarMatch(ctx: Registro, producto: Producto) returns (cerrado: bool)
      requires ctx.Valid()
      modifies ctx
      ensures ctx.Valid()
      ensures cerrado <==> sugerenciaSeleccionada.Some?
      ensures !cerrado ==>
                ctx.productos == old(ctx.productos) && ctx.mensaje == old(ctx.mensaje) && ctx.cargando == old(ctx.cargando)
      ensures cerrado ==>
                ctx.productos == Homologar(old(ctx.productos), producto.id, sugerenciaSeleccionada.value.codigo)
                && ctx.mensaje == Mensaje("exito", "Producto homologado exitosamente") && !ctx.cargando
      ensures ctx.productoSeleccionado == old(ctx.productoSeleccionado) && ctx.sugerenciasIA == old(ctx.sugerenciasIA)
    {
      if sugerenciaSeleccionada.None? {
        return false;
      }
      ctx.ConfirmarMatch(producto.id, sugerenciaSeleccionada.value.codigo);
      cerrado := true;
    }
  }

  /** Over the simulated suggestions at most one row is highlighted at a time. */
  lemma UnaSolaResaltada(sel: SugerenciaIA, i: nat, j: nat)
    requires i < |SugerenciasDemo()| && j < |SugerenciasDemo()|
    requires sel.codigo == SugerenciasDemo()[i].codigo && sel.codigo == SugerenciasDemo()[j].codigo
    ensures i == j
  {
    CodigosDistintos();
  }
}
