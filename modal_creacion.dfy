/** src/components/Productos/ModalCreacionProducto.jsx: the dialog that marks a product
    for manual creation. Its four form fields are folded into one notes text, which is
    stored on the product by the context's `marcarParaCreacion`. */
module ModalCreacion {
  import opened Wrappers
  import opened Text
  import opened ProductosContext
  import Api

  /** The reasons offered, as (value, label). */
  const RAZONES: seq<(string, string)> := [
    ("no_encontrado", "Producto no encontrado en catálogo BMC"),
    ("baja_confianza", "Confianza IA muy baja (< 60%)"),
    ("nuevo_producto", "Producto nuevo en el mercado"),
    ("especificaciones_diferentes", "Especificaciones diferentes a catálogo"),
    ("marca_especial", "Marca o presentación especial"),
    ("otro", "Otro motivo")]

  const CATEGORIAS: seq<string> := [
    "Granos y Cereales", "Aceites y Grasas", "Azúcar y Edulcorantes", "Lácteos y Derivados",
    "Carnes y Embutidos", "Frutas y Verduras", "Bebidas", "Productos de Panadería",
    "Condimentos y Especias", "Productos Procesados", "Productos de Limpieza", "Cuidado Personal", "Otro"]

  /** `razones.find(r => r.value === valor)?.label`: the label of the first reason with
      that value, if any. */
  function BuscarRazon(razones: seq<(string, string)>, valor: string): (r: Option<string>)
    ensures r.None? <==> forall j :: 0 <= j < |razones| ==> razones[j].0 != valor
    ensures r.Some? ==>
              exists j :: 0 <= j < |razones| && razones[j] == (valor, r.value)
                          && forall i :: 0 <= i < j ==> razones[i].0 != valor
  {
    if |razones| == 0 then None
    else if razones[0].0 == valor then Some(razones[0].1)
    else
      var r := BuscarRazon(razones[1..], valor);
      if r.Some? then
        var j :| 0 <= j < |razones[1..]| && razones[1..][j] == (valor, r.value)
                 && forall i :: 0 <= i < j ==> razones[1..][i].0 != valor;
        assert razones[j + 1] == (valor, r.value);
        r
      else r
  }

  /** How the template literal renders that label: the label of the first reason with
      that value, and "undefined" for an unknown value. */
  function EtiquetaTexto(valor: string): (r: string)
    ensures (forall j :: 0 <= j < |RAZONES| ==> RAZONES[j].0 != valor) ==> r == "undefined"
    ensures forall j :: 0 <= j < |RAZONES| && RAZONES[j].0 == valor && (forall i :: 0 <= i < j ==> RAZONES[i].0 != valor) ==>
              r == RAZONES[j].1
  {
    match BuscarRazon(RAZONES, valor)
    case Some(l) => l
    case None => "undefined"
  }

  /** Every value the selector offers renders its own label, never "undefined". */
  lemma RazonesConEtiqueta(k: nat)
    requires k < |RAZONES|
    ensures EtiquetaTexto(RAZONES[k].0) == RAZONES[k].1
    ensures EtiquetaTexto(RAZONES[k].0) != "undefined"
  {
    ValoresDistintos(k);
    var r := BuscarRazon(RAZONES, RAZONES[k].0);
    assert r.Some?;
    var j :| 0 <= j < |RAZONES| && RAZONES[j] == (RAZONES[k].0, r.value);
    EtiquetasLargas(j);
    assert |r.value| > 9;
  }

  /** No reason value repeats an earlier one. */
  lemma ValoresDistintos(k: nat)
    requires k < |RAZONES|
    ensures forall i :: 0 <= i < k ==> RAZONES[i].0 != RAZONES[k].0
  {
  }

  /** Every label is longer than "undefined". */
  lemma EtiquetasLargas(j: nat)
    requires j < |RAZONES|
    ensures |RAZONES[j].1| > 9
  {
    var largos := [|RAZONES[0].1|, |RAZONES[1].1|, |RAZONES[2].1|, |RAZONES[3].1|, |RAZONES[4].1|, |RAZONES[5].1|];
    assert largos == [38, 29, 28, 38, 29, 11];
    assert |RAZONES[j].1| == largos[j];
  }

  /** The notes up to and including the last label, for a given reason label. */
  function Cabecera(etiqueta: string, categoria: string, especificaciones: string): (r: string)
    ensures StartsWith(r, "**Razón de creación:** " + etiqueta)
    ensures r[0] == '*' && r[|r| - 1] == '*'
  {
    var inicio := "**Razón de creación:** " + etiqueta;
    var fin := "\n**Notas adicionales:**";
    var r := inicio + "\n**Categoría estimada:** " + categoria + "\n**Especificaciones:** " + especificaciones + fin;
    assert r[0] == inicio[0];
    assert r[|r| - 1] == fin[|fin| - 1];
    r
  }

  /** The composed notes of `handleConfirmar`: the four fields, each under its label,
      in the order reason, category, specifications, notes. Trimming only removes the
      newline before the first label and the whitespace after the last non-blank
      character; everything up to the last label is kept as written. */
  function NotasCompletas(razon: string, categoria: string, especificaciones: string, notas: string): (r: string)
    ensures r == Cabecera(EtiquetaTexto(razon), categoria, especificaciones) + TrimEnd(" " + notas)
    ensures StartsWith(r, "**Razón de creación:** " + EtiquetaTexto(razon))
  {
    var cabecera := Cabecera(EtiquetaTexto(razon), categoria, especificaciones);
    RecortePlantilla(cabecera, notas);
    var plantilla := "\n" + cabecera + " " + notas + "\n    ";
    Strip(plantilla)
  }

  /** Trimming the template: the leading newline goes, the heading stays whole, and
      only trailing whitespace of the notes part is cut. */
  lemma RecortePlantilla(cabecera: string, notas: string)
    requires |cabecera| > 0 && !IsSpace(cabecera[0]) && !IsSpace(cabecera[|cabecera| - 1])
    ensures Strip("\n" + cabecera + " " + notas + "\n    ") == cabecera + TrimEnd(" " + notas)
  {
    var plantilla := "\n" + cabecera + " " + notas + "\n    ";
    assert plantilla[1..] == cabecera + (" " + notas) + "\n    ";
    assert TrimStart(plantilla) == plantilla[1..];
    TrimEndAppendSpace(cabecera + (" " + notas), "\n    ");
    TrimEndKeepsPrefix(cabecera, " " + notas);
  }

  /** The form's own state. */
  class Formulario {
    var notas: string
    var razonCreacion: string
    var categoriaEstimada: string
    var especificaciones: string

    /** The confirm button is enabled once a category is chosen and nothing is
        loading. */
    predicate ConfirmarHabilitado(cargando: bool)
      reads this
      ensures ConfirmarHabilitado(cargando) ==> !cargando && |categoriaEstimada| > 0
    {
      categoriaEstimada != "" && !cargando
    }

    /** The form starts on the first reason with every text empty, so it cannot be
        confirmed yet. */
    constructor()
      ensures razonCreacion == "no_encontrado" && categoriaEstimada == ""
      ensures notas == "" && especificaciones == ""
      ensures forall cargando :: !ConfirmarHabilitado(cargando)
    {
      notas := "";
      razonCreacion := "no_encontrado";
      categoriaEstimada := "";
      especificaciones := "";
    }

    method CambiarRazon(valor: string)
      modifies this
      ensures razonCreacion == valor
      ensures notas == old(notas) && categoriaEstimada == old(categoriaEstimada)
      ensures especificaciones == old(especificaciones)
    {
      razonCreacion := valor;
    }

    method CambiarCategoria(valor: string)
      modifies this
      ensures categoriaEstimada == valor
      ensures notas == old(notas) && razonCreacion == old(razonCreacion)
      ensures especificaciones == old(especificaciones)
    {
      categoriaEstimada := valor;
    }

    method CambiarEspecificaciones(valor: string)
      modifies this
      ensures especificaciones == valor
      ensures notas == old(notas) && razonCreacion == old(razonCreacion)
      ensures categoriaEstimada == old(categoriaEstimada)
    {
      especificaciones := valor;
    }

    method CambiarNotas(valor: string)
      modifies this
      ensures notas == valor
      ensures razonCreacion == old(razonCreacion) && categoriaEstimada == old(categoriaEstimada)
      ensures especificaciones == old(especificaciones)
    {
      notas := valor;
    }

    /** `handleConfirmar`: the product is marked for creation with the composed notes
        and the dialog closes. The handler itself does not require a category: only
        the button does. */
    method Confirmar(ctx: Registro, producto: Producto) returns (cerrado: bool)
      requires ctx.Valid()
      modifies ctx
      ensures ctx.Valid() && cerrado
      ensures ctx.productos ==
                MarcarCreacion(old(ctx.productos), producto.id,
                               NotasCompletas(razonCreacion, categoriaEstimada, especificaciones, notas))
      ensures ctx.mensaje == Api.Mensaje("info", "Producto marcado para creación manual") && !ctx.cargando
      ensures ctx.productoSeleccionado == old(ctx.productoSeleccionado) && ctx.sugerenciasIA == old(ctx.sugerenciasIA)
    {
      var notasCompletas := NotasCompletas(razonCreacion, categoriaEstimada, especificaciones, notas);
      ctx.MarcarParaCreacion(producto.id, notasCompletas);
      cerrado := true;
    }
  }
}
