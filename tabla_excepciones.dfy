/** src/components/Terceros/TablaExcepciones.jsx: the exception table. Only the two
    client spellings of an open state are actionable; every other state, including
    the back end's 'No_Encontrado', shows as already handled. */
module TablaExcepciones {
  import opened Wrappers
  import opened Api
  import TercerosContext

  /** `esTerceroActivo`. */
  predicate EsTerceroActivo(estado: string)
    ensures EsTerceroActivo(estado) ==> estado !in {"No_Encontrado", "Corregido", "En Creación Manual", "Ignorado"}
  {
    estado in ["No Encontrado", "Inconsistente"]
  }

  const GRIS: string := "bg-gray-100 text-gray-800"

  /** `getEstadoColor`: every state has a color; unknown ones are gray. */
  function ColorEstado(estado: string): (c: string)
    ensures estado !in {"No Encontrado", "Inconsistente", "Corregido", "En Creación Manual"} ==> c == GRIS
    ensures EsTerceroActivo(estado) ==> c != GRIS
  {
    match estado
    case "No Encontrado" => "bg-red-100 text-red-800"
    case "Inconsistente" => "bg-orange-100 text-orange-800"
    case "Corregido" => "bg-green-100 text-green-800"
    case "En Creación Manual" => "bg-blue-100 text-blue-800"
    case "Ignorado" => GRIS
    case _ => GRIS
  }

  /** What the action cell of a row shows. */
  function CeldaAccion(e: ExcepcionTercero): (r: string)
    ensures r in {"Gestionar", "Gestionado"}
    ensures r == "Gestionar" <==> e.estadoValidacion in {"No Encontrado", "Inconsistente"}
  {
    if EsTerceroActivo(e.estadoValidacion) then "Gestionar" else "Gestionado"
  }

  /** After any recognised action the exception is handled: none of the states the
      client writes is active, so the row shows "Gestionado". */
  lemma AccionCierraExcepcion(excepciones: seq<ExcepcionTercero>, id: int, accion: string, i: nat)
    requires accion in {"corregir", "crear", "ignorar"}
    requires i < |excepciones| && excepciones[i].id == id
    ensures CeldaAccion(TercerosContext.Actualizar(excepciones, id, accion)[i]) == "Gestionado"
  {
  }

  /** The state the Python back ends write for a third party DIAN does not know is not
      actionable here. */
  lemma EstadoDelBackendNoActivo(e: ExcepcionTercero)
    requires e.estadoValidacion == "No_Encontrado"
    ensures CeldaAccion(e) == "Gestionado"
    ensures ColorEstado(e.estadoValidacion) == GRIS
  {
  }

  /** The table's own state: the exception whose action dialog is open. */
  class Vista {
    var excepcionSeleccionada: Option<ExcepcionTercero>
    var mostrarAcciones: bool

    constructor()
      ensures excepcionSeleccionada.None? && !mostrarAcciones
    {
      excepcionSeleccionada := None;
      mostrarAcciones := false;
    }

    /** `handleGestionarTercero`. */
    method Gestionar(e: ExcepcionTercero)
      modifies this
      ensures excepcionSeleccionada == Some(e) && mostrarAcciones
    {
      excepcionSeleccionada := Some(e);
      mostrarAcciones := true;
    }
  }
}
