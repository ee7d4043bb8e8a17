/** app.py: the Flask/SQLite back end. An upload is checked (present, named, allowed
    extension), inserted as a RECIBIDO row, and then walked through PROCESANDO to its
    final state by sequential UPDATEs; the SIMONA template is served only for a
    completed row. */
module FlaskApp {
  import opened Wrappers
  import opened Text
  import opened BackendCommon

  const ALLOWED_EXTENSIONS: set<string> := {"csv", "xml", "txt", "xlsx"}

  /** `allowed_file`: the name has a dot and the text after its last dot, lower-cased,
      is an allowed extension. */
  predicate AllowedFile(nombre: string)
    ensures AllowedFile(nombre) <==> '.' in nombre && TipoArchivo(ToLower(AfterLastDot(nombre))) != "UNKNOWN"
  {
    '.' in nombre && ToLower(AfterLastDot(nombre)) in ALLOWED_EXTENSIONS
  }

  /** The type label stored for an extension. */
  function TipoArchivo(ext: string): (r: string)
    ensures r == "UNKNOWN" <==> ext !in ALLOWED_EXTENSIONS
  {
    match ext
    case "csv" => "CSV"
    case "xml" => "XML"
    case "txt" => "TXT"
    case "xlsx" => "EXCEL"
    case _ => "UNKNOWN"
  }

  /** A row of the `lotes` table; None stands for SQL NULL. */
  datatype FilaLote = FilaLote(
    id: int,
    nombreArchivo: string,
    tipoArchivo: string,
    estado: string,
    totalFacturas: Option<int>,
    facturasProcesadas: Option<int>,
    erroresProductos: Option<int>,
    erroresTerceros: Option<int>)

  /** The row after `process_file_async`. Only a CSV upload is read (`csv` is what
      pandas makes of it); any other type gets fixed demonstration figures. A reader
      failure is the `except` branch, which sets ERROR_PROCESAMIENTO only. The
      10 % and 5 % error counts are `int(total * 0.1)` and `int(total * 0.05)`,
      written here as integer divisions. */
  function Procesada(f: FilaLote, csv: Frame): (r: FilaLote)
    ensures r.id == f.id && r.nombreArchivo == f.nombreArchivo && r.tipoArchivo == f.tipoArchivo
    ensures r.estado in {"COMPLETADO_EXITOSO", "COMPLETADO_CON_ADVERTENCIAS", "ERROR_PROCESAMIENTO"}
    ensures r.estado == "ERROR_PROCESAMIENTO" <==> f.tipoArchivo == "CSV" && csv.FrameError?
    ensures r.estado == "ERROR_PROCESAMIENTO" ==> r == f.(estado := "ERROR_PROCESAMIENTO")
    ensures r.estado == "COMPLETADO_EXITOSO" <==> f.tipoArchivo == "CSV" && csv.Frame? && csv.filas < 10
    ensures r.estado != "ERROR_PROCESAMIENTO" ==>
              r.totalFacturas.Some? && r.facturasProcesadas.Some? && r.erroresProductos.Some? && r.erroresTerceros.Some?
              && r.facturasProcesadas.value + r.erroresProductos.value + r.erroresTerceros.value == r.totalFacturas.value
              && 0 <= r.facturasProcesadas.value
              && (r.estado == "COMPLETADO_EXITOSO" <==> r.erroresProductos.value == 0 && r.erroresTerceros.value == 0)
    ensures f.tipoArchivo != "CSV" ==> r.totalFacturas == Some(25) && r.facturasProcesadas == Some(23)
  {
    if f.tipoArchivo == "CSV" then
      match csv
      case FrameError(_) => f.(estado := "ERROR_PROCESAMIENTO")
      case Frame(filas, _) =>
        var ep := filas / 10;
        var et := filas / 20;
        f.(estado := if ep == 0 && et == 0 then "COMPLETADO_EXITOSO" else "COMPLETADO_CON_ADVERTENCIAS",
           totalFacturas := Some(filas), facturasProcesadas := Some(filas - ep - et),
           erroresProductos := Some(ep), erroresTerceros := Some(et))
    else
      f.(estado := "COMPLETADO_CON_ADVERTENCIAS", totalFacturas := Some(25), facturasProcesadas := Some(23),
         erroresProductos := Some(1), erroresTerceros := Some(1))
  }

  /** A row can be exported once processing completed, with or without warnings. */
  predicate ListoParaDescarga(estado: string)
    ensures ListoParaDescarga(estado) ==> estado !in {"RECIBIDO", "PROCESANDO", "ERROR_PROCESAMIENTO"}
  {
    estado in {"COMPLETADO_EXITOSO", "COMPLETADO_CON_ADVERTENCIAS"}
  }

  /** `descargar_plantilla_simona`'s guard: 404 for an unknown batch, 400 for one that
      is not ready. The generated workbook itself is not part of this model. */
  function DescargarPlantillaSimona(fila: Option<FilaLote>): (r: Result<FilaLote, HttpError>)
    ensures fila.None? ==> r == Failure(HttpError(404, "Lote not found"))
    ensures fila.Some? && !ListoParaDescarga(fila.value.estado) ==> r == Failure(HttpError(400, "Lote not ready for download"))
    ensures r.Success? <==> fila.Some? && ListoParaDescarga(fila.value.estado)
  {
    if fila.None? then Failure(HttpError(404, "Lote not found"))
    else if !ListoParaDescarga(fila.value.estado) then Failure(HttpError(400, "Lote not ready for download"))
    else Success(fila.value)
  }

  /** A processed row is ready for download unless reading its CSV failed. */
  lemma ProcesadaDescargable(f: FilaLote, csv: Frame)
    ensures DescargarPlantillaSimona(Some(Procesada(f, csv))).Success?
            <==> !(f.tipoArchivo == "CSV" && csv.FrameError?)
  {
  }

  datatype RespuestaSubida = RespuestaSubida(loteId: int, mensaje: string)

  /** The SQLite `lotes` table. Rows get ids 1, 2, 3, ... in insertion order (the
      AUTOINCREMENT key of a table nobody deletes from). `escrituras` records every
      state the upload path writes, in order. */
  class BaseLotes {
    var filas: seq<FilaLote>
    ghost var escrituras: seq<(int, string)>

    ghost predicate Valid()
      reads this
    {
      forall i :: 0 <= i < |filas| ==> filas[i].id == i + 1
    }

    /** `init_database`: the rows the data generator loads into a fresh database (or
        that an existing one already holds), numbered from 1. */
    constructor(iniciales: seq<FilaLote>)
      requires forall i :: 0 <= i < |iniciales| ==> iniciales[i].id == i + 1
      ensures filas == iniciales && escrituras == [] && Valid()
    {
      filas := iniciales;
      escrituras := [];
    }

    /** `process_file_async`: PROCESANDO first, then the final state. */
    method ProcesarArchivo(loteId: int, csv: Frame)
      requires Valid() && 1 <= loteId <= |filas|
      modifies this
      ensures Valid()
      ensures filas == old(filas)[loteId - 1 := Procesada(old(filas)[loteId - 1].(estado := "PROCESANDO"), csv)]
      ensures escrituras == old(escrituras) + [(loteId, "PROCESANDO"), (loteId, filas[loteId - 1].estado)]
    {
      filas := filas[loteId - 1 := filas[loteId - 1].(estado := "PROCESANDO")];
      escrituras := escrituras + [(loteId, "PROCESANDO")];
      var final := Procesada(filas[loteId - 1], csv);
      filas := filas[loteId - 1 := final];
      escrituras := escrituras + [(loteId, final.estado)];
    }

    /** `POST /api/facturas/cargar`. `archivo` is the uploaded file's name (None when
        the request has no file part); `nombreSeguro` is what `secure_filename` makes
        of it; `csv` is what pandas reads from the saved file. */
    method CargarFactura(archivo: Option<string>, nombreSeguro: string, csv: Frame) returns (r: Result<RespuestaSubida, HttpError>)
      requires Valid()
      modifies this
      ensures Valid()
      ensures archivo.None? ==> r == Failure(HttpError(400, "No file uploaded"))
      ensures archivo == Some("") ==> r == Failure(HttpError(400, "No file selected"))
      ensures archivo.Some? && archivo.value != "" && !AllowedFile(archivo.value) ==>
                r == Failure(HttpError(400, "File type not allowed"))
      ensures archivo.Some? && AllowedFile(archivo.value) && '.' !in nombreSeguro ==>
                r == Failure(HttpError(500, "list index out of range"))
      ensures r.Failure? ==> filas == old(filas) && escrituras == old(escrituras)
      ensures r.Success? <==> archivo.Some? && AllowedFile(archivo.value) && '.' in nombreSeguro
      ensures r.Success? ==>
                var id := |old(filas)| + 1;
                var nueva := FilaLote(id, nombreSeguro, TipoArchivo(ToLower(AfterLastDot(nombreSeguro))), "RECIBIDO", None, None, None, None);
                r.value == RespuestaSubida(id, "File " + nombreSeguro + " uploaded successfully")
                && filas == old(filas) + [Procesada(nueva.(estado := "PROCESANDO"), csv)]
                && escrituras == old(escrituras) + [(id, "RECIBIDO"), (id, "PROCESANDO"), (id, filas[id - 1].estado)]
    {
      if archivo.None? {
        return Failure(HttpError(400, "No file uploaded"));
      }
      if archivo.value == "" {
        return Failure(HttpError(400, "No file selected"));
      }
      if !AllowedFile(archivo.value) {
        return Failure(HttpError(400, "File type not allowed"));
      }
      if '.' !in nombreSeguro {
        return Failure(HttpError(500, "list index out of range"));
      }
      var ext := ToLower(AfterLastDot(nombreSeguro));
      var id := |filas| + 1;
      var nueva := FilaLote(id, nombreSeguro, TipoArchivo(ext), "RECIBIDO", None, None, None, None);
      ghost var filas0, escrituras0 := filas, escrituras;
      filas := filas + [nueva];
      escrituras := escrituras + [(id, "RECIBIDO")];
      ProcesarArchivo(id, csv);
      // the new row is the last one, and processing rewrites only that row
      ReemplazarUltimo(filas0, nueva, Procesada(nueva.(estado := "PROCESANDO"), csv));
      assert escrituras == escrituras0 + [(id, "RECIBIDO"), (id, "PROCESANDO"), (id, filas[id - 1].estado)];
      r := Success(RespuestaSubida(id, "File " + nombreSeguro + " uploaded successfully"));
    }
  }

  lemma ReemplazarUltimo<T>(s: seq<T>, x: T, y: T)
    ensures (s + [x])[|s|] == x
    ensures (s + [x])[|s| := y] == s + [y]
  {
  }

  /** When `secure_filename` keeps the name, an allowed upload is never typed UNKNOWN. */
  lemma TipoConocidoSiNombreIntacto(nombre: string)
    requires AllowedFile(nombre)
    ensures TipoArchivo(ToLower(AfterLastDot(nombre))) != "UNKNOWN"
  {
  }
}
