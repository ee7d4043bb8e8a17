/** src/pages/Dashboard.jsx: the four summary cards of the start page, computed from
    the batches of the facturas context and the exceptions of the third-party
    context. */
module Dashboard {
  import opened Api
  import TablaExcepciones
  import TercerosContext
  import Secuencias

  /** `lotes.filter(lote => lote.estado === estado)`. */
  function LotesEn(lotes: seq<Lote>, estado: string): (r: seq<Lote>)
    ensures |r| <= |lotes|
    ensures forall l :: l in r <==> l in lotes && l.estado == estado
    ensures Secuencias.Subsecuencia(r, lotes)
  {
    if |lotes| == 0 then []
    else
      var resto := LotesEn(lotes[1..], estado);
      assert lotes == [lotes[0]] + lotes[1..];
      if lotes[0].estado == estado then
        assert ([lotes[0]] + resto)[1..] == resto;
        [lotes[0]] + resto
      else resto
  }

  /** The filter keeps every batch in the state as often as the list holds it, and no
      other batch. */
  lemma {:induction false} LotesEnCuenta(lotes: seq<Lote>, estado: string)
    ensures forall l :: multiset(LotesEn(lotes, estado))[l] == if l.estado == estado then multiset(lotes)[l] else 0
  {
    if |lotes| > 0 {
      LotesEnCuenta(lotes[1..], estado);
      assert lotes == [lotes[0]] + lotes[1..];
    }
  }

  /** The three batch counts are disjoint: together they never exceed the number of
      batches, and they cover all of them exactly when every batch is in one of the
      three states. A batch "Completado con Advertencias" or "Validando" is counted in
      none of them. */
  lemma {:induction false} CuentasDeLotes(lotes: seq<Lote>)
    ensures |LotesEn(lotes, "Completado")| + |LotesEn(lotes, "Error")| + |LotesEn(lotes, "Procesando")| <= |lotes|
    ensures (forall i :: 0 <= i < |lotes| ==> lotes[i].estado in {"Completado", "Error", "Procesando"}) ==>
              |LotesEn(lotes, "Completado")| + |LotesEn(lotes, "Error")| + |LotesEn(lotes, "Procesando")| == |lotes|
  {
    if |lotes| > 0 {
      CuentasDeLotes(lotes[1..]);
      assert forall i :: 0 <= i < |lotes[1..]| ==> lotes[1..][i] == lotes[i + 1];
    }
  }

  /** `excepciones.filter(exc => abiertos.includes(exc.estadoValidacion))`. */
  function ExcepcionesEn(excepciones: seq<ExcepcionTercero>, abiertos: seq<string>): (r: seq<ExcepcionTercero>)
    ensures |r| <= |excepciones|
    ensures forall e :: e in r <==> e in excepciones && e.estadoValidacion in abiertos
    ensures Secuencias.Subsecuencia(r, excepciones)
  {
    if |excepciones| == 0 then []
    else
      var resto := ExcepcionesEn(excepciones[1..], abiertos);
      assert excepciones == [excepciones[0]] + excepciones[1..];
      if excepciones[0].estadoValidacion in abiertos then
        assert ([excepciones[0]] + resto)[1..] == resto;
        [excepciones[0]] + resto
      else resto
  }

  /** The filter keeps every exception in an open state as often as the list holds it,
      and no other exception. */
  lemma {:induction false} ExcepcionesEnCuenta(excepciones: seq<ExcepcionTercero>, abiertos: seq<string>)
    ensures forall e :: multiset(ExcepcionesEn(excepciones, abiertos))[e]
                        == if e.estadoValidacion in abiertos then multiset(excepciones)[e] else 0
  {
    if |excepciones| > 0 {
      ExcepcionesEnCuenta(excepciones[1..], abiertos);
      assert excepciones == [excepciones[0]] + excepciones[1..];
    }
  }

  /** The open states as the dashboard spells them (line 20). */
  const ABIERTOS_ESCRITO: seq<string> := ["No_Encontrado", "Inconsistente"]

  /** The open states as the rest of the client spells them. */
  const ABIERTOS: seq<string> := ["No Encontrado", "Inconsistente"]

  /** The figures on the four cards. */
  datatype Tarjetas = Tarjetas(
    totalLotes: nat, completados: nat, conError: nat, enProceso: nat,
    excepciones: nat, excepcionesPendientes: nat)

  /** The cards for a given spelling of the open exception states. */
  function TarjetasCon(lotes: seq<Lote>, excepciones: seq<ExcepcionTercero>, abiertos: seq<string>): (r: Tarjetas)
    ensures r.totalLotes == |lotes| && r.excepciones == |excepciones|
    ensures r.completados == |LotesEn(lotes, "Completado")| && r.conError == |LotesEn(lotes, "Error")|
            && r.enProceso == |LotesEn(lotes, "Procesando")|
    ensures r.completados + r.conError + r.enProceso <= r.totalLotes
    ensures r.excepcionesPendientes == |ExcepcionesEn(excepciones, abiertos)|
    ensures r.excepcionesPendientes <= r.excepciones
  {
    CuentasDeLotes(lotes);
    Tarjetas(|lotes|, |LotesEn(lotes, "Completado")|, |LotesEn(lotes, "Error")|, |LotesEn(lotes, "Procesando")|,
             |excepciones|, |ExcepcionesEn(excepciones, abiertos)|)
  }

  /** The cards as written. */
  function TarjetasEscrito(lotes: seq<Lote>, excepciones: seq<ExcepcionTercero>): (r: Tarjetas)
    ensures r.excepcionesPendientes == |ExcepcionesEn(excepciones, ABIERTOS_ESCRITO)|
    ensures r.totalLotes == |lotes| && r.excepcionesPendientes <= r.excepciones
    ensures r.completados == |LotesEn(lotes, "Completado")| && r.conError == |LotesEn(lotes, "Error")|
            && r.enProceso == |LotesEn(lotes, "Procesando")|
  {
    TarjetasCon(lotes, excepciones, ABIERTOS_ESCRITO)
  }

  /** The cards with the pending exceptions counted in the client's spelling: exactly
      the exceptions the exception table offers to handle. */
  function TarjetasDe(lotes: seq<Lote>, excepciones: seq<ExcepcionTercero>): (r: Tarjetas)
    ensures r.totalLotes == |lotes| && r.excepcionesPendientes <= r.excepciones
    ensures r.excepcionesPendientes == |ExcepcionesEn(excepciones, ABIERTOS)|
    ensures r.completados == |LotesEn(lotes, "Completado")| && r.conError == |LotesEn(lotes, "Error")|
            && r.enProceso == |LotesEn(lotes, "Procesando")|
  {
    TarjetasCon(lotes, excepciones, ABIERTOS)
  }

  /** An exception is pending for the corrected count iff its table row shows the
      "Gestionar" action. */
  lemma PendienteSiGestionable(excepciones: seq<ExcepcionTercero>, e: ExcepcionTercero)
    ensures e in ExcepcionesEn(excepciones, ABIERTOS) <==>
              e in excepciones && TablaExcepciones.CeldaAccion(e) == "Gestionar"
  {
  }

  /** An open exception in the client's spelling "No Encontrado" (three of the five
      simulated ones) is missing from the written card, while the corrected count
      includes it. */
  lemma PendientesEscritoFalla(lotes: seq<Lote>, e: ExcepcionTercero)
    requires e.estadoValidacion == "No Encontrado"
    ensures TarjetasEscrito(lotes, [e]).excepcionesPendientes == 0
    ensures TarjetasDe(lotes, [e]).excepcionesPendientes == 1
  {
    // "No Encontrado" differs from "No_Encontrado" in its third character
    assert "No Encontrado"[2] != "No_Encontrado"[2];
    assert e.estadoValidacion !in ABIERTOS_ESCRITO && e.estadoValidacion in ABIERTOS;
    assert [e][1..] == [];
  }

  /** The simulated batches: one completed, one with errors and one in progress. */
  lemma TarjetasSimuladas()
    ensures var t := TarjetasDe(LotesMock(), ExcepcionesMock());
            t.totalLotes == 3 && t.completados == 1 && t.conError == 1 && t.enProceso == 1 && t.excepciones == 5
  {
  }

  predicate IdsUnicos(excepciones: seq<ExcepcionTercero>) {
    forall i, j :: 0 <= i < j < |excepciones| ==> excepciones[i].id != excepciones[j].id
  }

  /** An action on an id no exception has changes nothing. */
  lemma SinEseId(excepciones: seq<ExcepcionTercero>, id: int, accion: string)
    requires forall i :: 0 <= i < |excepciones| ==> excepciones[i].id != id
    ensures TercerosContext.Actualizar(excepciones, id, accion) == excepciones
  {
  }

  /** The filter's count, one exception at a time. */
  lemma ContarPaso(excepciones: seq<ExcepcionTercero>, abiertos: seq<string>)
    requires |excepciones| > 0
    ensures |ExcepcionesEn(excepciones, abiertos)|
            == (if excepciones[0].estadoValidacion in abiertos then 1 else 0) + |ExcepcionesEn(excepciones[1..], abiertos)|
  {
  }

  /** The update of a list is its head's update followed by the update of its tail. */
  lemma ActualizarCola(excepciones: seq<ExcepcionTercero>, id: int, accion: string)
    requires |excepciones| > 0
    ensures TercerosContext.Actualizar(excepciones, id, accion)[1..]
            == TercerosContext.Actualizar(excepciones[1..], id, accion)
  {
  }

  lemma IdsUnicosCola(excepciones: seq<ExcepcionTercero>)
    requires |excepciones| > 0 && IdsUnicos(excepciones)
    ensures IdsUnicos(excepciones[1..])
  {
  }

  /** None of the states an action writes is open. */
  lemma EstadoTrasAccionCerrado(accion: string, actual: string)
    requires accion in {"corregir", "crear", "ignorar"}
    ensures TercerosContext.EstadoTrasAccion(accion, actual) !in ABIERTOS
  {
    var r := TercerosContext.EstadoTrasAccion(accion, actual);
    // "Corregido", "En Creación Manual" and "Ignorado" are not thirteen characters
    // long, as both open states are
    assert |r| != 13;
  }

  /** Handling one open exception (correct, create or ignore) lowers the corrected
      pending count by exactly one. */
  lemma {:induction false} AccionBajaPendientes(excepciones: seq<ExcepcionTercero>, id: int, accion: string, k: nat)
    requires IdsUnicos(excepciones)
    requires accion in {"corregir", "crear", "ignorar"}
    requires k < |excepciones| && excepciones[k].id == id
    requires excepciones[k].estadoValidacion in ABIERTOS
    ensures |ExcepcionesEn(TercerosContext.Actualizar(excepciones, id, accion), ABIERTOS)|
            == |ExcepcionesEn(excepciones, ABIERTOS)| - 1
  {
    var nuevas := TercerosContext.Actualizar(excepciones, id, accion);
    var cabeza := if excepciones[0].estadoValidacion in ABIERTOS then 1 else 0;
    assert |ExcepcionesEn(excepciones, ABIERTOS)| == cabeza + |ExcepcionesEn(excepciones[1..], ABIERTOS)| by {
      ContarPaso(excepciones, ABIERTOS);
    }
    if k == 0 {
      assert |ExcepcionesEn(nuevas, ABIERTOS)| == |ExcepcionesEn(excepciones[1..], ABIERTOS)| by {
        ActualizarCola(excepciones, id, accion);
        ContarPaso(nuevas, ABIERTOS);
        SinEseId(excepciones[1..], id, accion);
        EstadoTrasAccionCerrado(accion, excepciones[0].estadoValidacion);
      }
    } else {
      assert |ExcepcionesEn(nuevas, ABIERTOS)| == cabeza + |ExcepcionesEn(nuevas[1..], ABIERTOS)| by {
        ContarPaso(nuevas, ABIERTOS);
        assert nuevas[0] == excepciones[0];
      }
      ActualizarCola(excepciones, id, accion);
      IdsUnicosCola(excepciones);
      AccionBajaPendientes(excepciones[1..], id, accion, k - 1);
    }
  }
}
