/** src/components/Facturas/MapeoManual.jsx: the manual field-mapping dialog for a
    batch in a custom format. It inverts the suggestions into a field -> column
    mapping, lets the user set one field at a time, and continues processing only
    when every required field is mapped. */
module MapeoManual {
  import opened Text
  import opened Api
  import opened FacturasContext
  import Secuencias

  /** The required destination fields, in the order the submit check lists them; the
      "required" marker in the table uses the same list. */
  const REQUERIDOS: seq<string> :=
    ["nombreUsuario", "nitUsuario", "fecha", "factNro", "producto", "cantidad", "valorUnitario", "total"]

  /** The initial mapping: `mapeo[field] = column` for every (column, field) pair, a
      later pair overwriting an earlier one for the same field. */
  function Invertir(sugerencias: seq<(string, string)>): (m: map<string, string>)
    ensures m.Keys == set k | 0 <= k < |sugerencias| :: sugerencias[k].1
    ensures forall f :: f in m ==> m[f] in set k | 0 <= k < |sugerencias| :: sugerencias[k].0
  {
    if |sugerencias| == 0 then map[]
    else
      var ultimo := sugerencias[|sugerencias| - 1];
      var m := Invertir(sugerencias[..|sugerencias| - 1])[ultimo.1 := ultimo.0];
      assert forall k :: 0 <= k < |sugerencias| - 1 ==> sugerencias[..|sugerencias| - 1][k] == sugerencias[k];
      m
  }

  /** Each field is mapped to the column of the LAST suggestion naming it. */
  lemma {:induction false} InvertirUltimo(sugerencias: seq<(string, string)>, k: nat)
    requires k < |sugerencias|
    requires forall j :: k < j < |sugerencias| ==> sugerencias[j].1 != sugerencias[k].1
    ensures sugerencias[k].1 in Invertir(sugerencias)
    ensures Invertir(sugerencias)[sugerencias[k].1] == sugerencias[k].0
  {
    var n := |sugerencias|;
    if k < n - 1 {
      var ini := sugerencias[..n - 1];
      assert ini[k] == sugerencias[k];
      InvertirUltimo(ini, k);
    }
  }

  predicate Distintos(s: seq<string>) {
    forall i, j :: 0 <= i < j < |s| ==> s[i] != s[j]
  }

  /** The missing required fields, in `REQUERIDOS` order: a field is missing when it is
      unmapped or mapped to the empty selection. A list of distinct fields gives a
      list of distinct missing fields. */
  function Faltantes(campos: seq<string>, mapeo: map<string, string>): (r: seq<string>)
    ensures |r| <= |campos|
    ensures forall x :: x in r <==> x in campos && (x !in mapeo || mapeo[x] == "")
    ensures Secuencias.Subsecuencia(r, campos)
    ensures Distintos(campos) ==> Distintos(r)
  {
    if |campos| == 0 then []
    else
      var resto := Faltantes(campos[1..], mapeo);
      assert Distintos(campos) ==> Distintos(campos[1..]) && campos[0] !in campos[1..];
      if campos[0] !in mapeo || mapeo[campos[0]] == "" then
        assert ([campos[0]] + resto)[1..] == resto;
        [campos[0]] + resto
      else resto
  }

  const PREFIJO_FALTANTES := "Faltan campos requeridos por mapear: "

  /** The notice shown when fields are missing: the prefix, then those ids joined by
      ", " in their order. */
  function MensajeFaltantes(faltantes: seq<string>): (m: Mensaje)
    ensures m.tipo == "error"
    ensures StartsWith(m.texto, PREFIJO_FALTANTES)
    ensures m.texto[|PREFIJO_FALTANTES|..] == Join(faltantes, ", ")
    ensures |faltantes| == 1 ==> m.texto == PREFIJO_FALTANTES + faltantes[0]
  {
    var t := PREFIJO_FALTANTES + Join(faltantes, ", ");
    assert t[|PREFIJO_FALTANTES|..] == Join(faltantes, ", ");
    Mensaje("error", t)
  }

  /** The notice names every missing field. */
  lemma MensajeNombraFaltantes(faltantes: seq<string>, k: nat)
    requires k < |faltantes|
    ensures Contains(MensajeFaltantes(faltantes).texto, faltantes[k])
  {
    JoinContiene(faltantes, ", ", k);
    ContainsTrasPrefijo(PREFIJO_FALTANTES, Join(faltantes, ", "), faltantes[k]);
  }

  /** The submit button is enabled once the suggestions are in, nothing is loading and
      at least one field is mapped. */
  predicate EnvioHabilitado(sugerenciasListas: bool, cargando: bool, mapeo: map<string, string>) {
    sugerenciasListas && !cargando && |mapeo| != 0
  }

  /** The button does not wait for a complete mapping: right after the suggestions
      load it is enabled while `factNro` is still missing, and the missing field is
      reported only on submit. */
  lemma EnvioHabilitadoConFaltante()
    ensures EnvioHabilitado(true, false, Invertir(SUGERENCIAS))
    ensures Faltantes(REQUERIDOS, Invertir(SUGERENCIAS)) == ["factNro"]
  {
    ClavesSugeridas();
    assert "total" in Invertir(SUGERENCIAS);
    MapeoSugeridoFaltaFactNro();
  }

  /** The suggested mapping covers every required field but `factNro`, so the dialog
      always opens with one field left for the user. */
  lemma MapeoSugeridoFaltaFactNro()
    ensures Faltantes(REQUERIDOS, Invertir(SUGERENCIAS)) == ["factNro"]
  {
    var m := Invertir(SUGERENCIAS);
    ClavesSugeridas();
    FaltaSoloFactNro(m);
  }

  lemma ClavesSugeridas()
    ensures Invertir(SUGERENCIAS).Keys
            == {"nombreUsuario", "nitUsuario", "fecha", "producto", "cantidad", "valorUnitario", "total"}
    ensures forall f :: f in Invertir(SUGERENCIAS) ==> Invertir(SUGERENCIAS)[f] != ""
  {
    var s := SUGERENCIAS;
    var campos := [s[0].1, s[1].1, s[2].1, s[3].1, s[4].1, s[5].1, s[6].1];
    assert campos == ["nombreUsuario", "nitUsuario", "fecha", "producto", "cantidad", "valorUnitario", "total"];
    assert (set k | 0 <= k < |s| :: s[k].1) == set x | x in campos;
    // every suggested column is a non-empty name
    forall k | 0 <= k < |s| ensures s[k].0 != "" {
      assert |s[k].0| > 0;
    }
  }

  /** One `forEach` step of the inversion overwrites exactly one key. */
  lemma InvertirPaso(s: seq<(string, string)>, k: nat)
    requires k < |s|
    ensures Invertir(s[..k + 1]) == Invertir(s[..k])[s[k].1 := s[k].0]
  {
    assert s[..k + 1][..k] == s[..k];
  }

  /** Exactly one field missing: the filter returns that field alone. */
  lemma {:induction false} FaltanteUnico(campos: seq<string>, mapeo: map<string, string>, j: nat)
    requires j < |campos|
    requires campos[j] !in mapeo || mapeo[campos[j]] == ""
    requires forall i :: 0 <= i < |campos| && i != j ==> campos[i] in mapeo && mapeo[campos[i]] != ""
    ensures Faltantes(campos, mapeo) == [campos[j]]
  {
    if j == 0 {
      FaltantesNinguno(campos[1..], mapeo);
    } else {
      FaltanteUnico(campos[1..], mapeo, j - 1);
    }
  }

  /** Nothing missing: the filter is empty. */
  lemma {:induction false} FaltantesNinguno(campos: seq<string>, mapeo: map<string, string>)
    requires forall i :: 0 <= i < |campos| ==> campos[i] in mapeo && mapeo[campos[i]] != ""
    ensures Faltantes(campos, mapeo) == []
  {
    if |campos| > 0 {
      FaltantesNinguno(campos[1..], mapeo);
    }
  }

  lemma FaltaSoloFactNro(m: map<string, string>)
    requires m.Keys == {"nombreUsuario", "nitUsuario", "fecha", "producto", "cantidad", "valorUnitario", "total"}
    requires forall f :: f in m ==> m[f] != ""
    ensures Faltantes(REQUERIDOS, m) == ["factNro"]
  {
    var r := REQUERIDOS;
    assert r == ["nombreUsuario", "nitUsuario", "fecha", "factNro", "producto", "cantidad", "valorUnitario", "total"];
    // "factNro" is none of the seven mapped fields: no other one starts with "fa"
    assert "factNro" !in m by {
      assert "factNro"[1] == 'a';
    }
    FaltanteUnico(r, m, 3);
  }

  /** The dialog's own state. */
  class Dialogo {
    var camposDestino: seq<CampoDestino>
    var columnasOrigen: seq<string>
    var mapeo: map<string, string>
    var sugerenciasListas: bool
    var cargandoSugerencias: bool

    constructor()
      ensures camposDestino == [] && columnasOrigen == [] && mapeo == map[]
      ensures !sugerenciasListas && cargandoSugerencias
    {
      camposDestino := [];
      columnasOrigen := [];
      mapeo := map[];
      sugerenciasListas := false;
      cargandoSugerencias := true;
    }

    /** `cargarSugerencias` once the context answered: the `forEach` that inverts the
        suggestions into the initial mapping. */
    method CargarSugerencias(s: Sugerencias)
      modifies this
      ensures camposDestino == s.camposDestino && columnasOrigen == s.columnasDetectadas
      ensures mapeo == Invertir(s.sugerencias)
      ensures sugerenciasListas && !cargandoSugerencias
    {
      camposDestino := s.camposDestino;
      columnasOrigen := s.columnasDetectadas;
      var inicial: map<string, string> := map[];
      for k := 0 to |s.sugerencias|
        invariant inicial == Invertir(s.sugerencias[..k])
      {
        assert s.sugerencias[..k + 1][..k] == s.sugerencias[..k];
        inicial := inicial[s.sugerencias[k].1 := s.sugerencias[k].0];
      }
      assert s.sugerencias[..|s.sugerencias|] == s.sugerencias;
      mapeo := inicial;
      sugerenciasListas := true;
      cargandoSugerencias := false;
    }

    /** `handleMapeoChange`: exactly one field is set. */
    method CambiarMapeo(campo: string, columna: string)
      modifies this
      ensures mapeo == old(mapeo)[campo := columna]
      ensures camposDestino == old(camposDestino) && columnasOrigen == old(columnasOrigen)
      ensures sugerenciasListas == old(sugerenciasListas) && cargandoSugerencias == old(cargandoSugerencias)
    {
      mapeo := mapeo[campo := columna];
    }

    /** `guardarMapeoYContinuar`: with a required field missing, only the notice is set
        and the batch is left alone; otherwise the batch goes back to processing and
        the dialog closes. */
    method GuardarYContinuar(ctx: Registro, loteId: int) returns (cerrado: bool)
      requires ctx.Valid()
      modifies ctx
      ensures ctx.loteSeleccionado == old(ctx.loteSeleccionado) && ctx.errores == old(ctx.errores)
      ensures ctx.Valid()
      ensures cerrado <==> Faltantes(REQUERIDOS, mapeo) == []
      ensures !cerrado ==>
                ctx.lotes == old(ctx.lotes) && ctx.cargando == old(ctx.cargando)
                && ctx.mensaje == MensajeFaltantes(Faltantes(REQUERIDOS, mapeo))
      ensures cerrado ==>
                ctx.lotes == MarcarProcesando(old(ctx.lotes), loteId) && !ctx.cargando
                && ctx.mensaje == Mensaje("exito", "Mapeo manual aplicado. El lote continuará su procesamiento.")
    {
      var faltantes := Faltantes(REQUERIDOS, mapeo);
      if |faltantes| > 0 {
        ctx.SetMensaje(MensajeFaltantes(faltantes));
        return false;
      }
      var _ := ctx.ContinuarProcesamiento(loteId, mapeo);
      cerrado := true;
    }
  }
}
