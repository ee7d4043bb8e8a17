/** src/components/Facturas/DetallesLote.jsx: the batch detail dialog. It is handed the
    detail object of the facturas context (the batch with its numeric `errores`
    replaced by the generated error list), groups the errors by field with a `reduce`,
    and shows a processing summary, the groups and a footer. */
module DetallesLote {
  import opened Wrappers
  import opened Api
  import TablaLotes
  import EstadisticasProductos
  import Secuencias

  // ---------------------------------------------------------------- lookups

  const GRIS: string := "bg-gray-100 text-gray-800"

  /** `obtenerColorEstado`: five known states, gray for any other. */
  function ColorEstado(estado: string): (r: string)
    ensures r == GRIS <==> estado !in {"Procesando", "Completado", "Completado con Advertencias", "Error"}
  {
    match estado
    case "Procesando" => "bg-blue-100 text-blue-800"
    case "Completado" => "bg-green-100 text-green-800"
    case "Completado con Advertencias" => "bg-yellow-100 text-yellow-800"
    case "Error" => "bg-red-100 text-red-800"
    case "Pendiente" => GRIS
    case _ => GRIS
  }

  /** The dialog colors a state as the batch table does, except "Validando", which the
      table shows purple and the dialog gray. */
  lemma ColorComoTabla(estado: string)
    ensures ColorEstado(estado) == TablaLotes.ColorEstado(estado) <==> estado != "Validando"
  {
  }

  /** `obtenerTipoArchivoLegible`. */
  function TipoArchivoLegible(formato: string): (r: string)
    ensures r == "Formato Desconocido" <==> formato !in {"xml", "csv_excel", "txt_plano", "plantilla51"}
  {
    match formato
    case "xml" => "Facturas XML"
    case "csv_excel" => "Plantilla CSV/Excel"
    case "txt_plano" => "Archivo de Texto Plano"
    case "plantilla51" => "Plantilla 51 (SIMONA)"
    case _ => "Formato Desconocido"
  }

  /** The header icon (`obtenerIconoTipoArchivo`, the same table as the batch table's)
      is the generic folder exactly when the format has no readable name. */
  lemma IconoYNombre(formato: string)
    ensures TablaLotes.IconoFormato(formato) == "📁" <==> TipoArchivoLegible(formato) == "Formato Desconocido"
  {
  }

  /** The format-specific information block of lines 271-310. */
  predicate ConInformacionEspecifica(formato: string) {
    formato == "xml" || formato == "csv_excel" || formato == "txt_plano"
  }

  /** Of the simulated batches only batch 2 has a known format, and none of them gets
      the format-specific block. */
  lemma FormatosDeLosLotesSimulados()
    ensures TipoArchivoLegible(LotesMock()[0].formato) == "Formato Desconocido"
    ensures TipoArchivoLegible(LotesMock()[1].formato) == "Plantilla 51 (SIMONA)"
    ensures TipoArchivoLegible(LotesMock()[2].formato) == "Formato Desconocido"
    ensures forall i :: 0 <= i < |LotesMock()| ==> !ConInformacionEspecifica(LotesMock()[i].formato)
  {
  }

  // ---------------------------------------------------------------- grouping

  /** A group per error type, in the order the types first appear. */
  type Grupos = seq<(string, seq<ErrorLote>)>

  /** `error.campo || 'OTROS'`: an empty field counts as 'OTROS'. */
  function TipoDe(e: ErrorLote): (t: string)
    ensures t != ""
    ensures e.campo != "" ==> t == e.campo
  {
    if e.campo == "" then "OTROS" else e.campo
  }

  /** The errors of one type, in their original order. */
  function DelTipo(es: seq<ErrorLote>, t: string): (r: seq<ErrorLote>)
    ensures |r| <= |es|
    ensures forall x :: x in r <==> x in es && TipoDe(x) == t
    ensures Secuencias.Subsecuencia(r, es)
  {
    if |es| == 0 then []
    else
      var p := DelTipo(es[..|es| - 1], t);
      assert es == es[..|es| - 1] + [es[|es| - 1]];
      Secuencias.SubsecuenciaAgregar(p, es[..|es| - 1], es[|es| - 1]);
      if TipoDe(es[|es| - 1]) == t then p + [es[|es| - 1]] else p
  }

  /** The group of a type holds every error of that type as often as the list holds
      it, and no other error. */
  lemma {:induction false} DelTipoCuenta(es: seq<ErrorLote>, t: string)
    ensures forall x :: multiset(DelTipo(es, t))[x] == if TipoDe(x) == t then multiset(es)[x] else 0
  {
    if |es| > 0 {
      DelTipoCuenta(es[..|es| - 1], t);
      assert es == es[..|es| - 1] + [es[|es| - 1]];
    }
  }

  /** `acc[tipo]`: the group of a type, if it has one. */
  function Buscar(g: Grupos, t: string): (r: Option<seq<ErrorLote>>)
    ensures r.None? <==> forall i :: 0 <= i < |g| ==> g[i].0 != t
  {
    if |g| == 0 then None
    else if g[0].0 == t then Some(g[0].1)
    else Buscar(g[1..], t)
  }

  predicate ClavesDistintas(g: Grupos) {
    forall i, j :: 0 <= i < j < |g| ==> g[i].0 != g[j].0
  }

  function SumaLongitudes(g: Grupos): nat {
    if |g| == 0 then 0 else |g[0].1| + SumaLongitudes(g[1..])
  }

  /** One step of the `reduce`: the error is pushed onto its type's group, which is
      created at the end when the type is new. Types already present keep their
      place. */
  function Insertar(g: Grupos, e: ErrorLote): (r: Grupos)
    ensures forall t {:trigger Buscar(r, t)} ::
              Buscar(r, t) == if t == TipoDe(e) then Some(Buscar(g, t).GetOr([]) + [e]) else Buscar(g, t)
    ensures |r| == |g| + (if Buscar(g, TipoDe(e)).None? then 1 else 0)
    ensures forall i :: 0 <= i < |g| ==> r[i].0 == g[i].0
    ensures Buscar(g, TipoDe(e)).None? ==> r[|g|].0 == TipoDe(e)
    ensures SumaLongitudes(r) == SumaLongitudes(g) + 1
  {
    if |g| == 0 then
      var r := [(TipoDe(e), [e])];
      assert r[1..] == [] && Buscar(g, TipoDe(e)).GetOr([]) + [e] == [e];
      r
    else if g[0].0 == TipoDe(e) then
      var r := [(g[0].0, g[0].1 + [e])] + g[1..];
      assert r[1..] == g[1..];
      r
    else
      var resto := Insertar(g[1..], e);
      var r := [g[0]] + resto;
      assert r[1..] == resto;
      r
  }

  /** Inserting a type that is new keeps the types distinct. */
  lemma InsertarDistintas(g: Grupos, e: ErrorLote)
    requires ClavesDistintas(g)
    ensures ClavesDistintas(Insertar(g, e))
  {
    var r := Insertar(g, e);
    var t := TipoDe(e);
    if Buscar(g, t).None? {
      // the keys of g, then t, which none of them is
      forall i, j | 0 <= i < j < |r| ensures r[i].0 != r[j].0 {
        if j == |g| {
          assert r[i].0 == g[i].0 && g[i].0 != t;
        } else {
          assert r[i].0 == g[i].0 && r[j].0 == g[j].0;
        }
      }
    } else {
      // the same keys in the same places
      forall i, j | 0 <= i < j < |r| ensures r[i].0 != r[j].0 {
        assert r[i].0 == g[i].0 && r[j].0 == g[j].0;
      }
    }
  }

  /** `errores.reduce(...)` over the detail's error list. */
  function Agrupar(es: seq<ErrorLote>): (r: Grupos)
    ensures forall t {:trigger Buscar(r, t)} ::
              Buscar(r, t) == if DelTipo(es, t) == [] then None else Some(DelTipo(es, t))
    ensures ClavesDistintas(r)
    ensures SumaLongitudes(r) == |es|
    ensures |r| <= |es| && (|r| == 0 <==> |es| == 0)
  {
    if |es| == 0 then []
    else
      var g := Agrupar(es[..|es| - 1]);
      InsertarDistintas(g, es[|es| - 1]);
      Insertar(g, es[|es| - 1])
  }

  /** Lines 51-56: a precomputed `erroresPorTipo` wins (even an empty one, since an
      object is truthy); otherwise the error list is grouped; without either there
      are no groups. */
  function GruposDe(erroresPorTipo: Option<Grupos>, errores: Option<seq<ErrorLote>>): (r: Grupos)
    ensures erroresPorTipo.Some? ==> r == erroresPorTipo.value
    ensures erroresPorTipo.None? && errores.Some? ==> SumaLongitudes(r) == |errores.value| && ClavesDistintas(r)
    ensures erroresPorTipo.None? && errores.Some? ==> r == Agrupar(errores.value)
    ensures erroresPorTipo.None? && errores.None? ==> r == []
  {
    match erroresPorTipo
    case Some(g) => g
    case None =>
      match errores
      case Some(es) => Agrupar(es)
      case None => []
  }

  /** The context's detail object carries no precomputed groups, so its own error
      list is grouped. */
  function GruposDelDetalle(d: DetalleLote): (r: Grupos)
    ensures r == Agrupar(d.errores)
    ensures |r| == 0 <==> |d.errores| == 0
  {
    GruposDe(None, Some(d.errores))
  }

  /** Every error is listed in exactly one group: the one of its own type. */
  lemma {:induction false} CadaErrorEnSuGrupo(es: seq<ErrorLote>, i: nat, t: string)
    requires i < |es|
    ensures Buscar(Agrupar(es), TipoDe(es[i])).Some?
    ensures es[i] in Buscar(Agrupar(es), TipoDe(es[i])).value
    ensures t != TipoDe(es[i]) && Buscar(Agrupar(es), t).Some? ==> es[i] !in Buscar(Agrupar(es), t).value
  {
    assert es[i] in DelTipo(es, TipoDe(es[i]));
  }

  /** The group headings of lines 184-187. */
  function TituloGrupo(tipo: string): (r: string)
    ensures tipo !in {"PRODUCTO", "NIT_COMPRADOR", "ARCHIVO"} ==> r == "📋 " + tipo
  {
    if tipo == "PRODUCTO" then "🔍 Productos sin Código BMC"
    else if tipo == "NIT_COMPRADOR" then "🏢 Terceros no válidos en DIAN"
    else if tipo == "ARCHIVO" then "📄 Errores de Archivo"
    else "📋 " + tipo
  }

  /** Different types get different headings, so a heading names its group. */
  lemma TitulosDistintos(a: string, b: string)
    requires a != b
    ensures TituloGrupo(a) != TituloGrupo(b)
  {
    var fijos := {"PRODUCTO", "NIT_COMPRADOR", "ARCHIVO"};
    var p := "📋 ";
    if a in fijos && b in fijos {
    } else if a in fijos {
      assert TituloGrupo(a)[0] != TituloGrupo(b)[0];
    } else if b in fijos {
      assert TituloGrupo(a)[0] != TituloGrupo(b)[0];
    } else {
      assert TituloGrupo(a)[|p|..] == a;
      assert TituloGrupo(b)[|p|..] == b;
    }
  }

  /** `errores.slice(0, 5)`: at most five rows per group, the first ones. */
  function Visibles(grupo: seq<ErrorLote>): (r: seq<ErrorLote>)
    ensures |r| == if |grupo| <= 5 then |grupo| else 5
    ensures r == grupo[..|r|]
  {
    if |grupo| <= 5 then grupo else grupo[..5]
  }

  /** The "... y N errores más" line: present only for a group of more than five, and
      N is exactly the number of rows left out. */
  function Restantes(grupo: seq<ErrorLote>): (r: Option<nat>)
    ensures r.Some? <==> |grupo| > 5
    ensures r.Some? ==> |Visibles(grupo)| + r.value == |grupo|
  {
    if |grupo| > 5 then Some(|grupo| - 5) else None
  }

  // ---------------------------------------------------------------- summary

  /** `Math.round(x * 100)` for `x = n / d` with `d > 0`, in integer arithmetic: the
      nearest integer, halves rounded up. */
  function Redondear(n: int, d: int): (r: int)
    requires d > 0
    ensures 2 * r * d <= 200 * n + d < 2 * r * d + 2 * d
    ensures 0 <= n <= d ==> 0 <= r <= 100
    ensures n == 0 ==> r == 0
    ensures n == d ==> r == 100
  {
    if n >= 0 then EstadisticasProductos.Redondeo(n, d)
    else
      var r := (200 * n + d) / (2 * d);
      CotaEntera(200 * n + d, 2 * d, r);
      r
  }

  lemma CotaEntera(x: int, y: int, q: int)
    requires y > 0 && q == x / y
    ensures q * y <= x < q * y + y
  {
  }

  /** The success rate of line 161 when `lote.errores` is a number `e`: 100 for a
      batch with no records (a falsy count), otherwise the rounded share of records
      without errors. A negative count of records divides by a negative number. */
  function ExitoDe(registros: int, e: int): (r: int)
    ensures registros == 0 ==> r == 100
    ensures registros > 0 ==> 2 * r * registros <= 200 * (registros - e) + registros < 2 * r * registros + 2 * registros
    ensures registros < 0 ==> 2 * r * -registros <= 200 * (e - registros) - registros < 2 * r * -registros - 2 * registros
    ensures e == 0 ==> r == 100
    ensures 0 <= e <= registros ==> 0 <= r <= 100
    ensures registros > 0 && e == registros ==> r == 0
  {
    if registros == 0 then 100
    else if registros > 0 then Redondear(registros - e, registros)
    else Redondear(e - registros, -registros)
  }

  /** How `lote.errores - ...` converts the detail's error ARRAY to a number: an empty
      array is 0, an array holding an error object is NaN (None). */
  function ListaANumero(errores: seq<ErrorLote>): (r: Option<int>)
    ensures r.Some? <==> |errores| == 0
    ensures r.Some? ==> r.value == 0
  {
    if |errores| == 0 then Some(0) else None
  }

  /** Line 161 as written, on the detail object: None stands for NaN. Since
      `lote.errores` is the error list, the rate is either 100 or NaN. */
  function ExitoEscrito(d: DetalleLote): (r: Option<int>)
    ensures r.None? <==> d.lote.registrosTotales != 0 && |d.errores| > 0
    ensures r.Some? ==> r.value == 100
  {
    if d.lote.registrosTotales == 0 then Some(100)
    else
      match ListaANumero(d.errores)
      case None => None
      case Some(e) => Some(ExitoDe(d.lote.registrosTotales, e))
  }

  /** What React is handed for the error counter of line 148, `{lote.errores || 0}`:
      the array is truthy, so it is rendered itself. An empty array renders nothing;
      an array of error objects is not a valid child. */
  datatype Contador = Cifra(n: int) | Nada | ObjetosNoValidos

  function ContadorEscrito(d: DetalleLote): (r: Contador)
    ensures r == Nada <==> |d.errores| == 0
    ensures r == ObjetosNoValidos <==> |d.errores| > 0
  {
    if |d.errores| == 0 then Nada else ObjetosNoValidos
  }

  /** For any detail of simulated batch 2 (85 records, a non-empty error list, which
      is what `getDetalleLoteMock(2)` returns) the counter cannot be rendered and the
      rate is NaN; for any detail without errors the counter is blank and the rate
      100%. */
  lemma ResumenEscritoFalla(d: DetalleLote)
    requires d.lote == LotesMock()[1] && |d.errores| > 0
    ensures d.lote.registrosTotales == 85
    ensures ContadorEscrito(d) == ObjetosNoValidos && ExitoEscrito(d).None?
  {
  }

  /** The summary with the count of the error list where a count is meant. */
  datatype Resumen = Resumen(registros: int, errores: nat, exito: int)

  function ResumenDe(d: DetalleLote): (r: Resumen)
    ensures r.registros == d.lote.registrosTotales && r.errores == |d.errores|
    ensures r.registros == 0 ==> r.exito == 100
    ensures r.registros > 0 ==>
              2 * r.exito * r.registros <= 200 * (r.registros - r.errores) + r.registros < 2 * r.exito * r.registros + 2 * r.registros
    ensures |d.errores| == 0 ==> r.exito == 100
    ensures 0 <= |d.errores| <= d.lote.registrosTotales ==> 0 <= r.exito <= 100
    ensures ExitoEscrito(d).Some? ==> r.exito == ExitoEscrito(d).value
  {
    Resumen(d.lote.registrosTotales, |d.errores|, ExitoDe(d.lote.registrosTotales, |d.errores|))
  }

  /** Batch 2 with its five simulated errors: five errors and 94% success. */
  lemma ResumenLote2(d: DetalleLote)
    requires d.lote == LotesMock()[1] && |d.errores| == 5
    ensures ResumenDe(d) == Resumen(85, 5, 94)
  {
    assert Redondear(80, 85) == 94;
  }

  // ---------------------------------------------------------------- footer

  datatype Pie = Pie(listo: bool, botonDescargar: bool)

  /** Lines 316-328: the ready text and the download button both follow
      `lote.puedeDescargar`. */
  function PieDe(puedeDescargar: bool): (r: Pie)
    ensures r.listo <==> puedeDescargar
    ensures r.botonDescargar <==> r.listo
  {
    Pie(puedeDescargar, puedeDescargar)
  }

  /** The context's detail object has no `puedeDescargar` field, so the dialog never
      offers the download, even for a batch the table lets you download. */
  function PieDeDetalle(d: DetalleLote): (r: Pie)
    ensures !r.botonDescargar && !r.listo
  {
    PieDe(false)
  }

  lemma DescargaSoloEnTabla(d: DetalleLote)
    requires d.lote.estado == "Completado"
    ensures TablaLotes.BotonesDe(d.lote).descargar && !PieDeDetalle(d).botonDescargar
  {
  }
}
