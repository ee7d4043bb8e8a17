/** backend/app/main.py: the simpler Firestore back end. Its upload reads a frame by
    (case-sensitive) file-name suffix, estimates 50 records when the frame is empty,
    and for `plantilla51` simulates up to five errors and up to three DIAN
    exceptions; a batch is downloadable only when exactly "Completado". */
module BackendApp {
  import opened Wrappers
  import opened Text
  import opened BackendCommon
  import BackendMain

  const MAX_BYTES: nat := 50 * 1024 * 1024

  /** This service's `cliente_nombres` lookup, with the same default. */
  function ClienteNombre(clienteId: string): (r: string)
    ensures r == "Cliente Desconocido" <==> clienteId !in {"1", "2", "3"}
    ensures clienteId == "1" ==> r == "Comiagro"
  {
    match clienteId
    case "1" => "Comiagro"
    case "2" => "Cliente B"
    case "3" => "Cliente C"
    case _ => "Cliente Desconocido"
  }

  /** The two services name the same client the same way only for id "1" and for
      unknown ids: clients "2" and "3" get different names in each. */
  lemma ClientesSegunServicio(clienteId: string)
    ensures ClienteNombre(clienteId) == BackendMain.ClienteNombre(clienteId) <==> clienteId !in {"2", "3"}
  {
  }

  /** The frame the upload works on: Excel for `.xlsx`/`.xls`, CSV for `.csv` (suffixes
      compared case-sensitively), an empty frame for anything else. */
  function MarcoLeido(nombre: string, c: Contenido): (f: Frame)
    ensures !EndsWith(nombre, ".xlsx") && !EndsWith(nombre, ".xls") && !EndsWith(nombre, ".csv") ==> f == Frame(0, [])
  {
    if EndsWith(nombre, ".xlsx") || EndsWith(nombre, ".xls") then c.excel
    else if EndsWith(nombre, ".csv") then c.csv
    else Frame(0, [])
  }

  /** `len(df) if not df.empty else 50`. */
  function RegistrosEstimados(f: Frame): (n: nat)
    requires f.Frame?
    ensures n >= 1
    ensures f.Empty() ==> n == 50
    ensures !f.Empty() ==> n == f.filas
  {
    if f.Empty() then 50 else f.filas
  }

  /** `min(5, registros // 10) if not df.empty else 3`. */
  function ErroresPlantilla51(f: Frame): (n: nat)
    requires f.Frame?
    ensures n <= 5
    ensures f.Empty() ==> n == 3
    ensures !f.Empty() ==> (n == 0 <==> f.filas < 10)
    ensures !f.Empty() && f.filas < 50 ==> n == f.filas / 10
    ensures !f.Empty() && f.filas >= 50 ==> n == 5
  {
    if f.Empty() then 3 else if f.filas / 10 < 5 then f.filas / 10 else 5
  }

  /** Demonstration exception i: rows 10, 25, 40; "not found" and "inconsistent"
      alternate. */
  function ExcepcionDemo(loteId: string, i: nat): Excepcion {
    Excepcion(loteId, 10 + i * 15, "90123456" + NatToString(i), "Empresa " + NatToString(i + 1) + " SAS",
              if i % 2 == 0 then "No_Encontrado" else "Inconsistente", "Pendiente", None, None)
  }

  /** The batch error written beside demonstration exception i, at the same row. */
  function ErrorDemo(loteId: string, i: nat): ErrorDoc {
    ErrorDoc(loteId, 10 + i * 15,
             Some(if i % 2 == 0 then "NIT_COMPRADOR" else "NOMBRE_PRODUCTO"),
             if i % 2 == 0 then "Tercero no encontrado en DIAN" else "Producto sin código BMC",
             "ERROR")
  }

  function ExcepcionesDemo(loteId: string, k: nat): (r: seq<Excepcion>)
    ensures |r| == k
  {
    seq(k, i requires 0 <= i < k => ExcepcionDemo(loteId, i))
  }

  function ErroresDemo(loteId: string, k: nat): (r: seq<ErrorDoc>)
    ensures |r| == k
  {
    seq(k, i requires 0 <= i < k => ErrorDemo(loteId, i))
  }

  /** Each demonstration exception sits at row 10 + 15·i with its error at the same
      row, every exception is pending, and "not found" (with a buyer-NIT error) and
      "inconsistent" alternate from i = 0. */
  lemma ExcepcionesDemoConError(loteId: string, k: nat, i: nat)
    requires i < k
    ensures var e := ExcepcionesDemo(loteId, k)[i];
            var err := ErroresDemo(loteId, k)[i];
            e.filaOrigen == 10 + 15 * i
            && e.estadoValidacion == (if i % 2 == 0 then "No_Encontrado" else "Inconsistente")
            && err.fila == e.filaOrigen && e.estadoGestion == "Pendiente"
            && (e.estadoValidacion == "No_Encontrado" <==> err.campo == Some("NIT_COMPRADOR"))
            && e.estadoValidacion in {"No_Encontrado", "Inconsistente"}
  {
  }

  /** How an upload's batch and documents follow from the frame `f` it read: a reader
      failure gives "Error" with one error and no document; otherwise the batch counts
      the frame's rows (50 for an empty frame), a `plantilla51` batch counts the
      Plantilla 51 errors and any other none, and one demonstration exception with its
      error is written per error, at most three. */
  predicate SegunMarco(r: Carga, f: Frame, formato: string, loteId: string) {
    && (f.FrameError? ==>
          r.lote.estado == "Error" && r.lote.errores == 1 && r.lote.registrosTotales == 0
          && r.errores == [] && r.excepciones == [])
    && (f.Frame? ==> r.lote.registrosTotales == RegistrosEstimados(f))
    && (f.Frame? && formato == "plantilla51" ==> r.lote.errores == ErroresPlantilla51(f))
    && (f.Frame? && formato != "plantilla51" ==> r.lote.errores == 0)
    && (f.Frame? ==>
          var k := if r.lote.errores < 3 then r.lote.errores else 3;
          r.errores == ErroresDemo(loteId, k) && r.excepciones == ExcepcionesDemo(loteId, k))
  }

  /** What `cargar_archivo` writes and replies for an upload within the size limit. A
      reader failure is the `except` branch: the batch keeps its initial zero record
      count, is marked "Error" with one error, and nothing else is written. */
  function CargaEsperada(nombre: string, clienteId: string, formato: string, c: Contenido, loteId: string): (r: Carga)
    ensures r.lote.estado in {"Completado", "Error"}
    ensures r.lote.estado == "Error" <==> r.lote.errores > 0
    ensures 0 <= r.lote.errores <= 5
    ensures |r.excepciones| == |r.errores| <= 3
    ensures |r.excepciones| == (if r.lote.errores < 3 then r.lote.errores else 3) || r.lote.registrosTotales == 0
    ensures MarcoLeido(nombre, c).FrameError? <==> r.lote.registrosTotales == 0
    ensures formato != "plantilla51" && MarcoLeido(nombre, c).Frame? ==> r.lote.estado == "Completado" && r.errores == []
    ensures MarcoLeido(nombre, c).Frame? && MarcoLeido(nombre, c).Empty() ==> r.lote.registrosTotales == 50
    ensures r.respuesta.estado == r.lote.estado && r.respuesta.registrosEstimados == r.lote.registrosTotales
    ensures r.lote.cliente == ClienteNombre(clienteId) && r.lote.formato == formato
    ensures SegunMarco(r, MarcoLeido(nombre, c), formato, loteId)
  {
    var f := MarcoLeido(nombre, c);
    var cliente := ClienteNombre(clienteId);
    if f.FrameError? then
      Carga(LoteDoc(loteId, nombre, cliente, formato, "Error", 0, 1, None), [], [],
            ["Archivo recibido y lote creado", "Error en procesamiento: " + f.msg],
            RespuestaCarga(loteId, nombre, "Error", 0))
    else
      var registros := RegistrosEstimados(f);
      var n := if formato == "plantilla51" then ErroresPlantilla51(f) else 0;
      var estado := if n > 0 then "Error" else "Completado";
      var k := if n < 3 then n else 3;
      Carga(LoteDoc(loteId, nombre, cliente, formato, estado, registros, n, None),
            ErroresDemo(loteId, k), ExcepcionesDemo(loteId, k),
            ["Archivo recibido y lote creado", "Procesamiento completado. Estado: " + estado],
            RespuestaCarga(loteId, nombre, estado, registros))
  }

  /** `POST /api/facturas/cargar`. */
  method CargarArchivo(nombre: string, tamano: int, clienteId: string, formato: string, c: Contenido, loteId: string)
    returns (r: Result<Carga, HttpError>)
    ensures tamano > MAX_BYTES ==> r == Failure(HttpError(413, "Archivo muy grande"))
    ensures tamano <= MAX_BYTES ==> r == Success(CargaEsperada(nombre, clienteId, formato, c, loteId))
  {
    if tamano > MAX_BYTES {
      return Failure(HttpError(413, "Archivo muy grande"));
    }
    var cliente := ClienteNombre(clienteId);
    var f := MarcoLeido(nombre, c);
    if f.FrameError? {
      var lote := LoteDoc(loteId, nombre, cliente, formato, "Error", 0, 1, None);
      return Success(Carga(lote, [], [], ["Archivo recibido y lote creado", "Error en procesamiento: " + f.msg],
                           RespuestaCarga(loteId, nombre, "Error", 0)));
    }
    var registros := if f.Empty() then 50 else f.filas;
    var estado := "Completado";
    var errores: nat := 0;
    var excepciones: seq<Excepcion> := [];
    var erroresLote: seq<ErrorDoc> := [];
    if formato == "plantilla51" {
      errores := ErroresPlantilla51(f);
      estado := if errores > 0 then "Error" else "Completado";
      excepciones, erroresLote := CrearExcepcionesDemo(loteId, if errores < 3 then errores else 3);
    }
    var lote := LoteDoc(loteId, nombre, cliente, formato, estado, registros, errores, None);
    r := Success(Carga(lote, erroresLote, excepciones,
                       ["Archivo recibido y lote creado", "Procesamiento completado. Estado: " + estado],
                       RespuestaCarga(loteId, nombre, estado, registros)));
  }

  /** The loop `for i in range(min(3, errores))` that writes each demonstration
      exception together with its batch error. */
  method CrearExcepcionesDemo(loteId: string, k: nat) returns (excepciones: seq<Excepcion>, errores: seq<ErrorDoc>)
    ensures excepciones == ExcepcionesDemo(loteId, k) && errores == ErroresDemo(loteId, k)
  {
    excepciones := [];
    errores := [];
    for i := 0 to k
      invariant excepciones == ExcepcionesDemo(loteId, i)
      invariant errores == ErroresDemo(loteId, i)
    {
      DemoPaso(loteId, i);
      excepciones := excepciones + [ExcepcionDemo(loteId, i)];
      errores := errores + [ErrorDemo(loteId, i)];
    }
  }

  /** One more loop turn appends demonstration exception i and its error. */
  lemma DemoPaso(loteId: string, i: nat)
    ensures ExcepcionesDemo(loteId, i + 1) == ExcepcionesDemo(loteId, i) + [ExcepcionDemo(loteId, i)]
    ensures ErroresDemo(loteId, i + 1) == ErroresDemo(loteId, i) + [ErrorDemo(loteId, i)]
  {
    var a, b := ExcepcionesDemo(loteId, i + 1), ExcepcionesDemo(loteId, i) + [ExcepcionDemo(loteId, i)];
    forall j | 0 <= j < i + 1 ensures a[j] == b[j] {
      assert a[j] == ExcepcionDemo(loteId, j);
    }
    var c, d := ErroresDemo(loteId, i + 1), ErroresDemo(loteId, i) + [ErrorDemo(loteId, i)];
    forall j | 0 <= j < i + 1 ensures c[j] == d[j] {
      assert c[j] == ErrorDemo(loteId, j);
    }
  }

  /** This back end lets a batch be downloaded only when it is exactly "Completado". */
  predicate PuedeDescargar(estado: string)
    ensures PuedeDescargar(estado) ==> BackendMain.PuedeDescargar(estado)
  {
    estado == "Completado"
  }

  datatype Detalle = Detalle(lote: LoteDoc, logs: seq<string>, errores: seq<ErrorDoc>, puedeDescargar: bool)

  /** `GET /api/facturas/lotes/{id}`. */
  function ObtenerDetalleLote(lote: Option<LoteDoc>, logs: seq<string>, errores: seq<ErrorDoc>): (r: Result<Detalle, HttpError>)
    ensures lote.None? <==> r == Failure(HttpError(404, "Lote no encontrado"))
    ensures r.Success? ==> r.value.lote == lote.value && r.value.errores == errores
    ensures r.Success? ==> (r.value.puedeDescargar <==> lote.value.estado == "Completado")
  {
    if lote.None? then Failure(HttpError(404, "Lote no encontrado"))
    else Success(Detalle(lote.value, logs, errores, PuedeDescargar(lote.value.estado)))
  }

  /** `GET /api/facturas/lotes/{id}/descargar`: the fixed header row and one sample row. */
  function DescargarPlantilla(lote: Option<LoteDoc>): (r: Result<nat, HttpError>)
    ensures r.Success? <==> lote.Some? && lote.value.estado == "Completado"
    ensures r.Failure? ==> r.error == HttpError(404, "Plantilla no disponible")
    ensures r.Success? ==> r.value == 1
  {
    if lote.None? || lote.value.estado != "Completado" then Failure(HttpError(404, "Plantilla no disponible"))
    else Success(1)
  }

  /** The two back ends disagree on a batch that completed with warnings: the one in
      backend/main.py serves its template, this one refuses it. This back end never
      produces that state itself. */
  lemma AdvertenciasSoloEnUnBackend(l: LoteDoc, nombre: string, clienteId: string, formato: string, c: Contenido, loteId: string)
    requires l.estado == "Completado con Advertencias"
    ensures BackendMain.DescargarPlantilla(l.id, Some(l)).Success?
    ensures DescargarPlantilla(Some(l)).Failure?
    ensures CargaEsperada(nombre, clienteId, formato, c, loteId).lote.estado != "Completado con Advertencias"
  {
  }
}
