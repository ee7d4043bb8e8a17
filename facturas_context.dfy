/** src/contexts/FacturasContext.jsx: the batch state holder of the front end. It keeps
    the batch list, the selected batch's detail, that batch's errors, a loading flag
    and a notice, and updates them step by step. Uploads are simulated: the random
    draws are parameters, the delays are left out. */
module FacturasContext {
  import opened Wrappers
  import opened Api

  /** The client label of a new batch: '1' and '2' are named, every other id
      (including the 'auto' the upload form sends) is "Cliente C". */
  function ClienteDe(clienteId: string): (r: string)
    ensures r in {"Comiagro", "Cliente B", "Cliente C"}
    ensures r == "Comiagro" <==> clienteId == "1"
    ensures r == "Cliente B" <==> clienteId == "2"
  {
    if clienteId == "1" then "Comiagro" else if clienteId == "2" then "Cliente B" else "Cliente C"
  }

  /** The three `Math.random()` draws of an upload; `Math.floor(Math.random() * k)` is
      the draw taken modulo k. The first draw is always made and is overwritten for
      the three known formats. */
  datatype Sorteos = Sorteos(base: nat, registros: nat, errores: nat)

  /** The batch `subirArchivo` builds: record and error ranges per format, and the
      state "Error" only for a plantilla51 upload with more than eight errors. */
  function LoteSubido(id: int, nombre: string, fecha: string, clienteId: string, formato: string, s: Sorteos): (l: Lote)
    ensures l.id == id && l.nombreArchivo == nombre && l.fechaCarga == fecha && l.formato == formato
    ensures l.cliente == ClienteDe(clienteId) && !l.procesadoManualmente
    ensures l.estado in {"Procesando", "Error"}
    ensures l.estado == "Error" <==> formato == "plantilla51" && l.errores > 8
    ensures formato == "comiagro" ==> 30 <= l.registrosTotales < 80 && 0 <= l.errores < 3
    ensures formato == "plantilla51" ==> 100 <= l.registrosTotales < 180 && 5 <= l.errores < 15
    ensures formato == "personalizado" ==> 10 <= l.registrosTotales < 50 && 1 <= l.errores < 6
    ensures formato !in {"comiagro", "plantilla51", "personalizado"} ==> 20 <= l.registrosTotales < 120 && l.errores == 0
    ensures 0 <= l.errores < l.registrosTotales
  {
    var registros :=
      if formato == "comiagro" then s.registros % 50 + 30
      else if formato == "plantilla51" then s.registros % 80 + 100
      else if formato == "personalizado" then s.registros % 40 + 10
      else s.base % 100 + 20;
    var errores :=
      if formato == "comiagro" then s.errores % 3
      else if formato == "plantilla51" then s.errores % 10 + 5
      else if formato == "personalizado" then s.errores % 5 + 1
      else 0;
    var estado := if formato == "plantilla51" && errores > 8 then "Error" else "Procesando";
    Lote(id, nombre, fecha, ClienteDe(clienteId), formato, estado, registros, errores, false)
  }

  /** Batch ids are exactly 1..n, each once: what the mock list has and what
      "previous length + 1" keeps. */
  predicate IdsValidos(lotes: seq<Lote>) {
    (forall i :: 0 <= i < |lotes| ==> 1 <= lotes[i].id <= |lotes|)
    && (forall i, j :: 0 <= i < j < |lotes| ==> lotes[i].id != lotes[j].id)
  }

  /** The `map` in `continuarProcesamiento`: the batch with that id is set to
      'Procesando' and marked as manually processed; nothing else changes. */
  function MarcarProcesando(lotes: seq<Lote>, id: int): (r: seq<Lote>)
    ensures |r| == |lotes|
    ensures forall i :: 0 <= i < |lotes| && lotes[i].id != id ==> r[i] == lotes[i]
    ensures forall i :: 0 <= i < |lotes| && lotes[i].id == id ==>
              r[i].estado == "Procesando" && r[i].procesadoManualmente
              && r[i].(estado := lotes[i].estado, procesadoManualmente := lotes[i].procesadoManualmente) == lotes[i]
  {
    seq(|lotes|, i requires 0 <= i < |lotes| =>
      if lotes[i].id == id then lotes[i].(estado := "Procesando", procesadoManualmente := true) else lotes[i])
  }

  /** Applying the manual mapping twice is the same as applying it once, and the ids
      are kept. */
  lemma MarcarProcesandoIdempotente(lotes: seq<Lote>, id: int)
    ensures MarcarProcesando(MarcarProcesando(lotes, id), id) == MarcarProcesando(lotes, id)
    ensures IdsValidos(lotes) ==> IdsValidos(MarcarProcesando(lotes, id))
  {
    var r := MarcarProcesando(lotes, id);
    assert forall i :: 0 <= i < |r| ==> r[i].id == lotes[i].id;
  }

  /** A destination field of the Comiagro template. */
  datatype CampoDestino = CampoDestino(id: string, nombre: string)

  /** What `obtenerSugerenciasMapeoCampos` returns: destination fields, detected
      columns, and the suggestions as (column, field id) pairs in insertion order. */
  datatype Sugerencias = Sugerencias(
    camposDestino: seq<CampoDestino>,
    columnasDetectadas: seq<string>,
    sugerencias: seq<(string, string)>)

  const CAMPOS_COMIAGRO: seq<CampoDestino> := [
    CampoDestino("nombreUsuario", "NOMBRE USUARIO (CLIENTE DEL CLIENTE)"),
    CampoDestino("nitUsuario", "NIT USUARIO (CLIENTE DEL CLIENTE)"),
    CampoDestino("ciudadEntrega", "CIUDAD DE ENTREGA DEL PRODUCTO"),
    CampoDestino("factNro", "FACT NRO"),
    CampoDestino("fecha", "FECHA"),
    CampoDestino("formaPago", "FORMA DE PAGO"),
    CampoDestino("producto", "PRODUCTO"),
    CampoDestino("presentacion", "PRESENTACION"),
    CampoDestino("cantidad", "CANTIDAD"),
    CampoDestino("valorUnitario", "VALOR UNITARIO"),
    CampoDestino("total", "TOTAL"),
    CampoDestino("ivaProducto", "% IVA PRODUCTO")]

  const COLUMNAS_DETECTADAS: seq<string> := [
    "ID_PRODUCTO", "DESCRIPCION", "PRECIO", "CANTIDAD", "TOTAL", "CLIENTE_NOMBRE", "CLIENTE_DOCUMENTO", "FECHA_FACTURA"]

  const SUGERENCIAS: seq<(string, string)> := [
    ("CLIENTE_NOMBRE", "nombreUsuario"), ("CLIENTE_DOCUMENTO", "nitUsuario"), ("FECHA_FACTURA", "fecha"),
    ("DESCRIPCION", "producto"), ("CANTIDAD", "cantidad"), ("PRECIO", "valorUnitario"), ("TOTAL", "total")]

  /** The simulated suggestions: twelve Comiagro fields or two generic ones, the fixed
      detected columns and the fixed suggestion pairs. */
  function SugerenciasMapeo(formatoDestino: string): (r: Sugerencias)
    ensures |r.camposDestino| == (if formatoDestino == "comiagro" then 12 else 2)
    ensures formatoDestino == "comiagro" ==> r.camposDestino == CAMPOS_COMIAGRO
    ensures r.columnasDetectadas == COLUMNAS_DETECTADAS && r.sugerencias == SUGERENCIAS
  {
    var campos := if formatoDestino == "comiagro" then CAMPOS_COMIAGRO
                  else [CampoDestino("campo1", "Campo 1"), CampoDestino("campo2", "Campo 2")];
    Sugerencias(campos, COLUMNAS_DETECTADAS, SUGERENCIAS)
  }

  /** Every suggestion pairs a detected column with a Comiagro field id. */
  lemma SugerenciasEnRango(k: nat)
    requires k < |SUGERENCIAS|
    ensures SUGERENCIAS[k].0 in COLUMNAS_DETECTADAS
    ensures exists j :: 0 <= j < |CAMPOS_COMIAGRO| && CAMPOS_COMIAGRO[j].id == SUGERENCIAS[k].1
  {
    var j := [0, 1, 4, 6, 8, 9, 10][k];
    assert CAMPOS_COMIAGRO[j].id == SUGERENCIAS[k].1;
  }

  /** The provider's state. */
  class Registro {
    var lotes: seq<Lote>
    var loteSeleccionado: Option<DetalleLote>
    var errores: seq<ErrorLote>
    var cargando: bool
    var mensaje: Mensaje

    predicate Valid()
      reads this
    {
      IdsValidos(lotes)
    }

    constructor()
      ensures lotes == [] && loteSeleccionado.None? && errores == [] && !cargando && mensaje == SIN_MENSAJE
      ensures Valid()
    {
      lotes := [];
      loteSeleccionado := None;
      errores := [];
      cargando := false;
      mensaje := SIN_MENSAJE;
    }

    /** `setMensaje`, which the provider also hands to its consumers: only the notice
        changes. */
    method SetMensaje(m: Mensaje)
      modifies this
      ensures lotes == old(lotes) && loteSeleccionado == old(loteSeleccionado)
      ensures errores == old(errores) && cargando == old(cargando)
      ensures mensaje == m
    {
      mensaje := m;
    }

    /** `cargarLotes`: the list is replaced by the mock batches. */
    method CargarLotes()
      modifies this
      ensures lotes == LotesMock() && !cargando && Valid()
      ensures loteSeleccionado == old(loteSeleccionado) && errores == old(errores) && mensaje == old(mensaje)
    {
      cargando := true;
      lotes := LotesMock();
      cargando := false;
    }

    /** `subirArchivo`: the new batch gets id "previous length + 1" and is put in front
        of the list; the ids stay 1..n. */
    method SubirArchivo(nombre: string, fecha: string, clienteId: string, formato: string, s: Sorteos)
      returns (respuesta: Lote)
      requires Valid()
      modifies this
      ensures respuesta == LoteSubido(|old(lotes)| + 1, nombre, fecha, clienteId, formato, s)
      ensures lotes == [respuesta] + old(lotes)
      ensures Valid()
      ensures mensaje == Mensaje("exito", "Archivo subido correctamente") && !cargando
      ensures loteSeleccionado == old(loteSeleccionado) && errores == old(errores)
    {
      cargando := true;
      respuesta := LoteSubido(|lotes| + 1, nombre, fecha, clienteId, formato, s);
      lotes := [respuesta] + lotes;
      mensaje := Mensaje("exito", "Archivo subido correctamente");
      cargando := false;
    }

    /** `verDetalleLote`: the detail comes from the mock lookup, so only batches 1 to 3
        can be opened, whatever the list holds. On success the detail is selected and
        its errors become the error list; on failure only the notice changes. */
    method VerDetalleLote(loteId: int) returns (r: Result<DetalleLote, string>)
      modifies this
      ensures r.Failure? <==> !(1 <= loteId <= 3)
      ensures lotes == old(lotes) && !cargando
      ensures r.Success? ==>
                r.value.lote == LotesMock()[loteId - 1]
                && loteSeleccionado == Some(r.value) && errores == r.value.errores && mensaje == old(mensaje)
      ensures r.Failure? ==>
                loteSeleccionado == old(loteSeleccionado) && errores == old(errores)
                && mensaje == Mensaje("error", "Error al obtener detalles: Lote no encontrado")
    {
      cargando := true;
      r := GetDetalleLoteMock(loteId);
      if r.Failure? {
        mensaje := Mensaje("error", "Error al obtener detalles: Lote no encontrado");
      } else {
        loteSeleccionado := Some(r.value);
        if |r.value.errores| > 0 {
          errores := r.value.errores;
        } else {
          errores := [];
        }
      }
      cargando := false;
    }

    /** `descargarPlantillaComiagro`: only the notice changes. */
    method DescargarPlantillaComiagro(loteId: int)
      modifies this
      ensures mensaje == Mensaje("exito", "La plantilla se descargará en breve...") && !cargando
      ensures lotes == old(lotes) && loteSeleccionado == old(loteSeleccionado) && errores == old(errores)
    {
      cargando := true;
      mensaje := Mensaje("exito", "La plantilla se descargará en breve...");
      cargando := false;
    }

    /** `continuarProcesamiento`: the mapping itself is not sent anywhere; the batch
        with that id is put back into processing. */
    method ContinuarProcesamiento(loteId: int, datosMapeo: map<string, string>) returns (estado: string)
      requires Valid()
      modifies this
      ensures lotes == MarcarProcesando(old(lotes), loteId) && Valid()
      ensures mensaje == Mensaje("exito", "Mapeo manual aplicado. El lote continuará su procesamiento.")
      ensures estado == "success" && !cargando
      ensures loteSeleccionado == old(loteSeleccionado) && errores == old(errores)
    {
      cargando := true;
      MarcarProcesandoIdempotente(lotes, loteId);
      lotes := MarcarProcesando(lotes, loteId);
      mensaje := Mensaje("exito", "Mapeo manual aplicado. El lote continuará su procesamiento.");
      estado := "success";
      cargando := false;
    }

    /** `obtenerSugerenciasMapeoCampos`: the simulated suggestions; the state ends as it
        was, with loading off. */
    method ObtenerSugerenciasMapeoCampos(formatoDestino: string) returns (r: Sugerencias)
      modifies this
      ensures r == SugerenciasMapeo(formatoDestino) && !cargando
      ensures lotes == old(lotes) && loteSeleccionado == old(loteSeleccionado)
      ensures errores == old(errores) && mensaje == old(mensaje)
    {
      cargando := true;
      r := SugerenciasMapeo(formatoDestino);
      cargando := false;
    }
  }

  /** Uploads keep ids unique: after loading the mock list, the next batch is number 4,
      which `verDetalleLote` then cannot open. */
  lemma SubidoTrasMockNoTieneDetalle(nombre: string, fecha: string, clienteId: string, formato: string, s: Sorteos)
    ensures var l := LoteSubido(|LotesMock()| + 1, nombre, fecha, clienteId, formato, s);
            l.id == 4 && !(1 <= l.id <= 3)
            && forall i :: 0 <= i < |LotesMock()| ==> LotesMock()[i].id != l.id
  {
  }
}
