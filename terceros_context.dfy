/** src/contexts/TercerosContext.jsx: the state holder for DIAN third-party exceptions.
    An action on an exception rewrites that exception's validation state in place;
    the action's data is accepted but not stored. */
module TercerosContext {
  import opened Api

  /** The client's state after an action: three recognised actions, every other one
      keeps the current state. */
  function EstadoTrasAccion(accion: string, actual: string): (r: string)
    ensures accion == "corregir" ==> r == "Corregido"
    ensures accion == "crear" ==> r == "En Creación Manual"
    ensures accion == "ignorar" ==> r == "Ignorado"
    ensures accion !in {"corregir", "crear", "ignorar"} ==> r == actual
  {
    if accion == "corregir" then "Corregido"
    else if accion == "crear" then "En Creación Manual"
    else if accion == "ignorar" then "Ignorado"
    else actual
  }

  /** The `map` in `actualizarTercero`: only the exception with that id changes, and
      only in its validation state. */
  function Actualizar(excepciones: seq<ExcepcionTercero>, id: int, accion: string): (r: seq<ExcepcionTercero>)
    ensures |r| == |excepciones|
    ensures forall i :: 0 <= i < |r| && excepciones[i].id != id ==> r[i] == excepciones[i]
    ensures forall i :: 0 <= i < |r| && excepciones[i].id == id ==>
              r[i] == excepciones[i].(estadoValidacion := EstadoTrasAccion(accion, excepciones[i].estadoValidacion))
  {
    seq(|excepciones|, i requires 0 <= i < |excepciones| =>
      if excepciones[i].id == id
      then excepciones[i].(estadoValidacion := EstadoTrasAccion(accion, excepciones[i].estadoValidacion))
      else excepciones[i])
  }

  /** The update never looks at the current state: the same action twice is the same
      action once. */
  lemma ActualizarIdempotente(excepciones: seq<ExcepcionTercero>, id: int, accion: string)
    ensures Actualizar(Actualizar(excepciones, id, accion), id, accion) == Actualizar(excepciones, id, accion)
  {
    var uno := Actualizar(excepciones, id, accion);
    var dos := Actualizar(uno, id, accion);
    forall i | 0 <= i < |excepciones|
      ensures dos[i] == uno[i]
    {
      if excepciones[i].id == id {
        assert uno[i].id == id;
      }
    }
  }

  /** The provider's state. */
  class Registro {
    var excepciones: seq<ExcepcionTercero>
    var cargando: bool
    var mensaje: Mensaje

    constructor()
      ensures excepciones == [] && !cargando && mensaje == SIN_MENSAJE
    {
      excepciones := [];
      cargando := false;
      mensaje := SIN_MENSAJE;
    }

    /** `cargarExcepciones`: the list is replaced by the mock exceptions. */
    method CargarExcepciones()
      modifies this
      ensures excepciones == ExcepcionesMock() && !cargando && mensaje == old(mensaje)
    {
      cargando := true;
      excepciones := ExcepcionesMock();
      cargando := false;
    }

    /** `actualizarTercero`: `datos` is not written anywhere; the notice names the
        action, recognised or not. */
    method ActualizarTercero(excepcionId: int, accion: string, datos: map<string, string>) returns (estado: string)
      modifies this
      ensures excepciones == Actualizar(old(excepciones), excepcionId, accion)
      ensures estado == "success" && !cargando
      ensures mensaje == Mensaje("exito", "Tercero actualizado correctamente: " + accion)
    {
      cargando := true;
      excepciones := Actualizar(excepciones, excepcionId, accion);
      mensaje := Mensaje("exito", "Tercero actualizado correctamente: " + accion);
      estado := "success";
      cargando := false;
    }
  }
}
