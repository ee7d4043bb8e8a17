/** src/services/api.js: the front end's service layer. The fetch wrappers are I/O and
    are not modelled; what is modelled is `handleResponse` as a function of the
    response status and its parsed body, the mock batch and exception lists the
    contexts load, and `getDetalleLoteMock`, which looks a batch up among the mock
    batches and builds its log and error lists by successive pushes. */
module Api {
  import opened Wrappers

  /** The `{ tipo, texto }` notice every context holds; empty when nothing is shown. */
  datatype Mensaje = Mensaje(tipo: string, texto: string)

  const SIN_MENSAJE: Mensaje := Mensaje("", "")

  // ---------------------------------------------------------------- handleResponse

  /** A response body as `response.json()` parses it: the value and its `message`
      field ("" when absent or empty). */
  datatype Cuerpo<T> = Cuerpo(valor: T, message: string)

  const ERROR_PETICION: string := "Error en la petición"

  /** `handleResponse`: a failed response is thrown with the server's message, or the
      generic one when the body has none or cannot be parsed; a successful response
      yields its parsed body, or the parser's own error. */
  function HandleResponse<T>(ok: bool, cuerpo: Result<Cuerpo<T>, string>): (r: Result<T, string>)
    ensures r.Success? <==> ok && cuerpo.Success?
    ensures r.Success? ==> r.value == cuerpo.value.valor
    ensures !ok ==> r.Failure? && r.error != ""
    ensures !ok && cuerpo.Success? && cuerpo.value.message != "" ==> r.error == cuerpo.value.message
    ensures !ok && (cuerpo.Failure? || cuerpo.value.message == "") ==> r.error == ERROR_PETICION
    ensures ok && cuerpo.Failure? ==> r.error == cuerpo.error
  {
    if !ok then
      if cuerpo.Success? && cuerpo.value.message != "" then Failure(cuerpo.value.message)
      else Failure(ERROR_PETICION)
    else if cuerpo.Failure? then Failure(cuerpo.error)
    else Success(cuerpo.value.valor)
  }

  // ---------------------------------------------------------------- batches

  /** A batch as the front end holds it. `procesadoManualmente` is absent (false) until
      a manual mapping has been applied. */
  datatype Lote = Lote(
    id: int,
    nombreArchivo: string,
    fechaCarga: string,
    cliente: string,
    formato: string,
    estado: string,
    registrosTotales: int,
    errores: int,
    procesadoManualmente: bool)

  /** `getLotesMock`: three batches with ids 1, 2, 3, none reporting more errors than
      records. */
  function LotesMock(): (r: seq<Lote>)
    ensures |r| == 3
    ensures forall i :: 0 <= i < |r| ==> r[i].id == i + 1 && 0 <= r[i].errores <= r[i].registrosTotales
  {
    [ Lote(1, "facturas_comiagro_may2025.xlsx", "2025-05-02T10:30:00", "Comiagro", "comiagro", "Completado", 120, 0, false),
      Lote(2, "facturas_mayo_semana1.csv", "2025-05-01T15:45:00", "Cliente B", "plantilla51", "Error", 85, 12, false),
      Lote(3, "facturas_procesadas.txt", "2025-04-30T09:15:00", "Cliente C", "personalizado", "Procesando", 45, 0, false) ]
  }

  /** `lotes.find(l => l.id === id)`: the first batch with that id. */
  function BuscarLote(lotes: seq<Lote>, id: int): (r: Option<Lote>)
    ensures r.None? <==> forall i :: 0 <= i < |lotes| ==> lotes[i].id != id
    ensures r.Some? ==> exists i :: 0 <= i < |lotes| && lotes[i] == r.value && r.value.id == id
                                    && forall j :: 0 <= j < i ==> lotes[j].id != id
  {
    if |lotes| == 0 then None
    else if lotes[0].id == id then Some(lotes[0])
    else
      var r := BuscarLote(lotes[1..], id);
      assert r.Some? ==> exists i :: 0 <= i < |lotes[1..]| && lotes[1..][i] == r.value && r.value.id == id
                                    && forall j :: 0 <= j < i ==> lotes[1..][j].id != id;
      if r.Some? then
        var i :| 0 <= i < |lotes[1..]| && lotes[1..][i] == r.value && r.value.id == id
                 && forall j :: 0 <= j < i ==> lotes[1..][j].id != id;
        assert lotes[i + 1] == r.value && forall j :: 0 <= j < i + 1 ==> lotes[j].id != id;
        r
      else r
  }

  // ---------------------------------------------------------------- third parties

  /** A DIAN third-party exception as the front end holds it. */
  datatype ExcepcionTercero = ExcepcionTercero(
    id: int,
    loteId: int,
    filaOrigen: int,
    documento: string,
    nombreReportado: string,
    estadoValidacion: string,
    fechaDeteccion: string,
    notas: string,
    formatoArchivo: string,
    campoAfectado: string)

  /** `getExcepcionesMock`: five exceptions, ids 1 to 5, all in one of the two client
      spellings of an open state. */
  function ExcepcionesMock(): (r: seq<ExcepcionTercero>)
    ensures |r| == 5
    ensures forall i :: 0 <= i < |r| ==> r[i].id == i + 1
    ensures forall i :: 0 <= i < |r| ==> r[i].estadoValidacion in {"No Encontrado", "Inconsistente"}
  {
    [ ExcepcionTercero(1, 2, 23, "901234567", "Comercializadora XYZ", "No Encontrado", "2025-05-01T16:00:00",
                       "Verificar NIT en DIAN", "plantilla51", "NIT CLIENTE"),
      ExcepcionTercero(2, 2, 45, "800123456", "Distribuidora ABC", "Inconsistente", "2025-05-01T16:05:00",
                       "Nombre no coincide con registro DIAN", "plantilla51", "NOMBRE CLIENTE"),
      ExcepcionTercero(3, 2, 67, "1234567890", "Juan Pérez", "No Encontrado", "2025-05-01T16:10:00",
                       "Verificar cédula en DIAN", "plantilla51", "NIT CLIENTE"),
      ExcepcionTercero(4, 2, 38, "830114840", "Industrias Alimenticias ABC", "Inconsistente", "2025-05-01T16:15:00",
                       "Nombre registrado en DIAN: INDUSTRIAS ALIMENTICIAS ABC S.A.S", "plantilla51", "NOMBRE CLIENTE"),
      ExcepcionTercero(5, 1, 12, "900765432", "Alimentos Frescos SAS", "No Encontrado", "2025-05-02T10:33:00",
                       "Posible error en dígito de verificación", "comiagro", "NIT USUARIO") ]
  }

  // ---------------------------------------------------------------- batch detail

  datatype ErrorLote = ErrorLote(fila: int, campo: string, error: string)

  datatype MapeoDetalle = MapeoDetalle(
    formatoOrigen: string,
    camposOriginales: seq<string>,
    camposMapeados: bool,
    camposNoMapeados: seq<string>)

  /** The detail object: every field of the batch, except that its numeric `errores`
      is replaced by the generated error list. */
  datatype DetalleLote = DetalleLote(lote: Lote, logs: seq<string>, errores: seq<ErrorLote>, mapeo: Option<MapeoDetalle>)

  const PRIMER_ERROR: ErrorLote := ErrorLote(23, "NIT", "Tercero no encontrado en DIAN")

  /** The log of the detail: the two base entries, then four more for comiagro and
      five for any other format. */
  function LogsDe(formato: string): (r: seq<string>)
    ensures |r| == (if formato == "comiagro" then 6 else 7)
    ensures r[0] == "Inicio de procesamiento" && r[1] == "Validación de estructura completada"
  {
    var base := ["Inicio de procesamiento", "Validación de estructura completada"];
    var extra :=
      if formato == "comiagro" then
        ["Mapeo de campos formato Comiagro completado",
         "Homologación de códigos BMC completada",
         "Validación de terceros completada",
         "Generación de plantilla Comiagro completada"]
      else if formato == "plantilla51" then
        ["Mapeo de campos formato Plantilla51 completado",
         "Homologación de códigos BMC completada",
         "Validación de terceros en proceso...",
         "Se encontraron excepciones en validación de terceros",
         "Generación de plantilla Comiagro completada con advertencias"]
      else
        ["Intento de mapeo automático de campos",
         "Se requiere mapeo manual de algunos campos",
         "Homologación de códigos BMC completada parcialmente",
         "Validación de terceros completada",
         "Generación de plantilla Comiagro completada"];
    base + extra
  }

  /** The errors of a batch that has any: the row-23 NIT error, then one more for
      comiagro, four for plantilla51 and two for any other format. */
  function ErroresDe(formato: string): (r: seq<ErrorLote>)
    ensures |r| == (if formato == "comiagro" then 2 else if formato == "plantilla51" then 5 else 3)
    ensures r[0] == PRIMER_ERROR
  {
    var resto :=
      if formato == "comiagro" then
        [ErrorLote(45, "Razón Social", "No coincide con registro DIAN")]
      else if formato == "plantilla51" then
        [ErrorLote(12, "NOMBRE CLIENTE", "Valor vacío o inválido"),
         ErrorLote(38, "PRECIO UNITARIO", "Valor no numérico encontrado"),
         ErrorLote(45, "NIT CLIENTE", "No coincide con registro DIAN"),
         ErrorLote(67, "CODIGO SUBYA", "No se encontró código BMC equivalente")]
      else
        [ErrorLote(8, "Desconocido", "No se pudo mapear al formato Comiagro"),
         ErrorLote(15, "Producto", "No se encontró código BMC equivalente")];
    [PRIMER_ERROR] + resto
  }

  /** The field mapping of a batch with a format: twelve original fields for
      comiagro, eleven for plantilla51 and five otherwise, all mapped except two
      fields of a "personalizado" batch. */
  function MapeoDe(formato: string): (r: MapeoDetalle)
    ensures r.formatoOrigen == formato && r.camposMapeados
    ensures |r.camposOriginales| == (if formato == "comiagro" then 12 else if formato == "plantilla51" then 11 else 5)
    ensures r.camposNoMapeados != [] <==> formato == "personalizado"
  {
    var originales :=
      if formato == "comiagro" then
        ["NOMBRE USUARIO", "NIT USUARIO", "CIUDAD DE ENTREGA", "FACT NRO", "FECHA", "FORMA DE PAGO",
         "PRODUCTO", "PRESENTACION", "CANTIDAD", "VALOR UNITARIO", "TOTAL", "% IVA PRODUCTO"]
      else if formato == "plantilla51" then
        ["NOMBRE CLIENTE", "NIT CLIENTE", "DIRECCION", "No. FACTURA", "FECHA DE FACTURA",
         "NOMBRE PRODUCTO", "IVA PRODUCTO", "CANTIDAD O KILOS", "PRECIO UNITARIO", "TOTAL FACTURA", "CODIGO SUBYA"]
      else
        ["Campo 1", "Campo 2", "Campo 3", "Campo 4", "Campo 5"];
    var noMapeados := if formato == "personalizado" then ["Campo 3", "Campo 5"] else [];
    MapeoDetalle(formato, originales, true, noMapeados)
  }

  /** What the detail of a batch holds: the log of its format; the errors of its
      format only when the batch reports errors or is in state "Error"; the field
      mapping of its format only when it has one. */
  predicate DetalleConforme(d: DetalleLote) {
    && d.logs == LogsDe(d.lote.formato)
    && (|d.errores| > 0 <==> d.lote.errores > 0 || d.lote.estado == "Error")
    && (|d.errores| > 0 ==> d.errores == ErroresDe(d.lote.formato))
    && (d.mapeo.Some? <==> d.lote.formato != "")
    && (d.mapeo.Some? ==> d.mapeo.value == MapeoDe(d.lote.formato))
  }

  /** The body of `getDetalleLoteMock` once the batch is found. */
  method DetalleDe(lote: Lote) returns (d: DetalleLote)
    ensures d.lote == lote && DetalleConforme(d)
  {
    var logs := LogsDe(lote.formato);
    var errores: seq<ErrorLote> := [];
    if lote.errores > 0 || lote.estado == "Error" {
      errores := ErroresDe(lote.formato);
    }
    var mapeo: Option<MapeoDetalle> := None;
    if lote.formato != "" {
      mapeo := Some(MapeoDe(lote.formato));
    }
    d := DetalleLote(lote, logs, errores, mapeo);
  }

  /** `getDetalleLoteMock(loteId)`: the lookup runs over the three mock batches, so
      only ids 1, 2 and 3 are found, whatever batches the caller holds. */
  method GetDetalleLoteMock(loteId: int) returns (r: Result<DetalleLote, string>)
    ensures r.Failure? <==> !(1 <= loteId <= 3)
    ensures r.Failure? ==> r.error == "Lote no encontrado"
    ensures r.Success? ==> r.value.lote == LotesMock()[loteId - 1] && DetalleConforme(r.value)
  {
    var lotes := LotesMock();
    // batch k sits at index k - 1
    assert 1 <= loteId <= 3 ==> lotes[loteId - 1].id == loteId;
    var lote := BuscarLote(lotes, loteId);
    if lote.None? {
      return Failure("Lote no encontrado");
    }
    assert lote.value == lotes[loteId - 1];
    var d := DetalleDe(lote.value);
    r := Success(d);
  }
}
