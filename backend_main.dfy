/** backend/main.py: the Firestore back end's upload pipeline (format resolution,
    per-type processing, simulated validation errors and DIAN exceptions), the batch
    detail with its errors grouped by field, and the template download guard. */
module BackendMain {
  import opened Wrappers
  import opened Text
  import opened BackendCommon
  import Secuencias

  /** The upload size limit: 50 MiB. */
  const MAX_BYTES: nat := 50 * 1024 * 1024

  /** The formats for which the upload simulates validation errors. */
  const FORMATOS_SIMULADOS: seq<string> := ["xml", "csv_excel", "plantilla51"]

  /** The dictionary the per-type processors return. */
  datatype Procesado = Procesado(
    success: bool,
    registros: nat,
    errores: seq<string>,
    tipo: Option<string>,
    estructura: Option<string>,
    columnas: seq<string>)

  /** What every processor's reply satisfies: it succeeds exactly when it reports no
      error, a success counts at least one record, and a failure that still counts
      records is a typed reply without columns. */
  predicate Coherente(r: Procesado) {
    && (r.success <==> r.errores == [])
    && (r.success ==> r.registros >= 1)
    && (!r.success && r.registros > 0 ==> r.tipo.Some? && r.columnas == [])
  }

  function Fallo(msg: string): Procesado {
    Procesado(false, 0, [msg], None, None, [])
  }

  /** `filename.lower().split('.')[-1]`: the lower-cased text after the last dot,
      whichever of the two is done first. */
  function Extension(nombre: string): (r: string)
    ensures '.' !in r
    ensures r == ToLower(AfterLastDot(nombre))
  {
    AfterLastDotOfLower(nombre);
    AfterLastDot(ToLower(nombre))
  }

  // ---------------------------------------------------------------- XML

  /** A tag names an invoice when its lower-cased text contains "factura" or
      "invoice". */
  predicate EtiquetaDeFactura(etiqueta: string) {
    Contains(ToLower(etiqueta), "factura") || Contains(ToLower(etiqueta), "invoice")
  }

  /** The test ignores letter case: a tag containing "factura" or "invoice" in any
      casing ("Factura", "INVOICE", ...) names an invoice. */
  lemma EtiquetaConPalabra(etiqueta: string, palabra: string)
    requires ToLower(palabra) == "factura" || ToLower(palabra) == "invoice"
    requires Contains(etiqueta, palabra)
    ensures EtiquetaDeFactura(etiqueta)
  {
    ContainsToLower(etiqueta, palabra);
  }

  /** How many of the tags name an invoice: the number of positions holding one. */
  function ContarFacturas(etiquetas: seq<string>): (n: nat)
    ensures n <= |etiquetas|
    ensures n == |Secuencias.Posiciones(etiquetas, EtiquetaDeFactura)|
  {
    if |etiquetas| == 0 then
      assert Secuencias.Posiciones(etiquetas, EtiquetaDeFactura) == {};
      0
    else
      var k := |etiquetas| - 1;
      Secuencias.PosicionesPrefijo(etiquetas, EtiquetaDeFactura, k);
      assert etiquetas[..k + 1] == etiquetas;
      ContarFacturas(etiquetas[..k]) + (if EtiquetaDeFactura(etiquetas[k]) then 1 else 0)
  }

  /** The count is zero exactly when no tag names an invoice. */
  lemma {:induction false} ContarFacturasCero(etiquetas: seq<string>)
    ensures ContarFacturas(etiquetas) == 0 <==> forall i :: 0 <= i < |etiquetas| ==> !EtiquetaDeFactura(etiquetas[i])
  {
    if |etiquetas| > 0 {
      var init := etiquetas[..|etiquetas| - 1];
      ContarFacturasCero(init);
      assert forall i :: 0 <= i < |init| ==> init[i] == etiquetas[i];
    }
  }

  /** The loop over `root.iter()`. */
  method ContarElementosFactura(etiquetas: seq<string>) returns (n: nat)
    ensures n == ContarFacturas(etiquetas)
  {
    n := 0;
    for i := 0 to |etiquetas|
      invariant n == ContarFacturas(etiquetas[..i])
    {
      assert etiquetas[..i + 1][..i] == etiquetas[..i];
      if EtiquetaDeFactura(etiquetas[i]) {
        n := n + 1;
      }
    }
    assert etiquetas[..|etiquetas|] == etiquetas;
  }

  /** `process_xml_file`. A failure other than a parse error escapes it and is
      reported by the dispatcher's handler, whose message is used here. */
  function ResultadoXml(doc: XmlDoc): (r: Procesado)
    ensures r.success <==> doc.XmlTree?
    ensures r.success ==> r.registros >= 1 && r.errores == [] && r.tipo == Some("XML")
    ensures r.success && ContarFacturas(doc.etiquetas) > 0 ==> r.registros == ContarFacturas(doc.etiquetas)
    ensures r.success && ContarFacturas(doc.etiquetas) == 0 && doc.hijosRaiz > 0 ==> r.registros == doc.hijosRaiz
    ensures r.success && ContarFacturas(doc.etiquetas) == 0 && doc.hijosRaiz == 0 ==> r.registros == 1
    ensures !r.success ==> r.registros == 0 && |r.errores| == 1
    ensures Coherente(r)
  {
    match doc
    case XmlTree(etiquetas, hijos) =>
      var n := ContarFacturas(etiquetas);
      Procesado(true, if n == 0 then (if hijos == 0 then 1 else hijos) else n, [], Some("XML"), None, [])
    case XmlParseError(m) => Fallo("Error parsing XML: " + m)
    case XmlReadError(m) => Fallo("Error procesando archivo: " + m)
  }

  method ProcesarXml(doc: XmlDoc) returns (r: Procesado)
    ensures r == ResultadoXml(doc)
  {
    match doc
    case XmlTree(etiquetas, hijos) =>
      var n := ContarElementosFactura(etiquetas);
      if n == 0 {
        n := if hijos == 0 then 1 else hijos;
      }
      r := Procesado(true, n, [], Some("XML"), None, []);
    case XmlParseError(m) =>
      r := Fallo("Error parsing XML: " + m);
    case XmlReadError(m) =>
      r := Fallo("Error procesando archivo: " + m);
  }

  // ---------------------------------------------------------------- CSV / Excel

  /** `process_csv_excel_file`. */
  function ResultadoCsvExcel(frame: Frame, ext: string): (r: Procesado)
    ensures r.success <==> frame.Frame? && frame.filas > 0 && |frame.columnas| > 0
    ensures r.success <==> r.errores == []
    ensures frame.Frame? ==> r.registros == frame.filas
    ensures frame.Frame? ==> |r.columnas| <= 10 && r.columnas <= frame.columnas
    ensures frame.Frame? ==> |r.columnas| == (if |frame.columnas| < 10 then |frame.columnas| else 10)
    ensures frame.FrameError? ==> r == Fallo("Error procesando " + ToUpper(ext) + ": " + frame.msg)
    ensures Coherente(r)
  {
    match frame
    case FrameError(m) => Fallo("Error procesando " + ToUpper(ext) + ": " + m)
    case Frame(filas, columnas) =>
      var errores := (if filas == 0 then ["El archivo no contiene datos"] else [])
                     + (if |columnas| == 0 then ["El archivo no tiene columnas definidas"] else []);
      Procesado(|errores| == 0, filas, errores, Some("CSV/Excel (" + ToUpper(ext) + ")"), None,
                columnas[..if |columnas| < 10 then |columnas| else 10])
  }

  // ---------------------------------------------------------------- plain text

  /** `[line.strip() for line in lines if line.strip()]`. */
  function NoVacias(lineas: seq<string>): (r: seq<string>)
    ensures |r| <= |lineas|
    ensures forall i :: 0 <= i < |r| ==> r[i] != "" && r[i] == Strip(r[i])
  {
    if |lineas| == 0 then []
    else (if Strip(lineas[0]) != "" then [Strip(lineas[0])] else []) + NoVacias(lineas[1..])
  }

  /** No line survives exactly when every line is whitespace only. */
  lemma {:induction false} NoVaciasVacia(lineas: seq<string>)
    ensures NoVacias(lineas) == [] <==> forall i :: 0 <= i < |lineas| ==> AllSpace(lineas[i])
  {
    if |lineas| > 0 {
      NoVaciasVacia(lineas[1..]);
      StripEmptyIffAllSpace(lineas[0]);
      assert forall i :: 1 <= i < |lineas| ==> lineas[i] == lineas[1..][i - 1];
    }
  }

  /** Stripping is idempotent. */
  lemma StripIdempotente(s: string)
    ensures Strip(Strip(s)) == Strip(s)
  {
    var t := Strip(s);
    if |t| > 0 {
      assert TrimStart(t) == t;
      assert TrimEnd(t) == t;
    }
  }

  /** The structure guessed from the first non-empty line: pipes win over tabs, tabs
      over commas. */
  function Estructura(linea: string): (r: string)
    ensures r == "Delimitado por |" <==> '|' in linea
    ensures r == "Delimitado por tabs" <==> '|' !in linea && '\t' in linea
    ensures r == "Posiblemente CSV" <==> '|' !in linea && '\t' !in linea && ',' in linea
    ensures r == "Texto libre" <==> '|' !in linea && '\t' !in linea && ',' !in linea
  {
    if '|' in linea then "Delimitado por |"
    else if '\t' in linea then "Delimitado por tabs"
    else if ',' in linea then "Posiblemente CSV"
    else "Texto libre"
  }

  /** `process_txt_file`. */
  function ResultadoTxt(t: TextFile): (r: Procesado)
    ensures r.success <==> r.errores == []
    ensures t.TextLines? ==> r.registros == |NoVacias(t.lineas)| && r.tipo == Some("TXT")
    ensures t.TextLines? ==> (r.success <==> exists i :: 0 <= i < |t.lineas| && !AllSpace(t.lineas[i]))
    ensures t.TextReadError? ==> r == Fallo("Error procesando TXT: " + t.msg)
    ensures t.TextLines? ==>
              r.estructura == Some(if |NoVacias(t.lineas)| > 0 then Estructura(NoVacias(t.lineas)[0]) else "Texto libre")
    ensures Coherente(r)
  {
    match t
    case TextReadError(m) => Fallo("Error procesando TXT: " + m)
    case TextLines(lineas) =>
      var ne := NoVacias(lineas);
      NoVaciasVacia(lineas);
      var errores := if |ne| == 0 then ["El archivo de texto está vacío"] else [];
      var estructura := if |ne| > 0 then Estructura(ne[0]) else "Texto libre";
      Procesado(|ne| > 0, |ne|, errores, Some("TXT"), Some(estructura), [])
  }

  // ---------------------------------------------------------------- dispatch

  /** `process_file_by_type`: either the declared format or the extension can select
      a processor; XML is tried first, then CSV/Excel, then text, and a file neither
      names is refused without being read. */
  function ProcesarPorTipo(formato: string, nombre: string, c: Contenido): (r: Procesado)
    ensures Coherente(r)
    ensures var ext := Extension(nombre);
            formato == "xml" || ext == "xml" ==> r == ResultadoXml(c.xml)
    ensures var ext := Extension(nombre);
            formato != "xml" && ext != "xml"
            && (formato in ["csv_excel", "plantilla51"] || ext in ["csv", "xlsx", "xls"]) ==>
              r == ResultadoCsvExcel(if ext == "csv" then c.csv else c.excel, ext)
    ensures var ext := Extension(nombre);
            formato !in ["xml", "csv_excel", "plantilla51"] && ext !in ["xml", "csv", "xlsx", "xls"]
            && (formato == "txt_plano" || ext == "txt") ==>
              r == ResultadoTxt(c.texto)
    ensures var ext := Extension(nombre);
            formato !in ["xml", "csv_excel", "plantilla51", "txt_plano"] && ext !in ["xml", "csv", "xlsx", "xls", "txt"] ==>
              r == Procesado(false, 0, ["Formato de archivo no reconocido"], None, None, [])
  {
    var ext := Extension(nombre);
    if formato == "xml" || ext == "xml" then ResultadoXml(c.xml)
    else if formato in ["csv_excel", "plantilla51"] || ext in ["csv", "xlsx", "xls"] then
      ResultadoCsvExcel(if ext == "csv" then c.csv else c.excel, ext)
    else if formato == "txt_plano" || ext == "txt" then ResultadoTxt(c.texto)
    else Procesado(false, 0, ["Formato de archivo no reconocido"], None, None, [])
  }

  method ProcesarArchivoPorTipo(formato: string, nombre: string, c: Contenido) returns (r: Procesado)
    ensures r == ProcesarPorTipo(formato, nombre, c)
  {
    var ext := Extension(nombre);
    if formato == "xml" || ext == "xml" {
      r := ProcesarXml(c.xml);
    } else if formato in ["csv_excel", "plantilla51"] || ext in ["csv", "xlsx", "xls"] {
      r := ResultadoCsvExcel(if ext == "csv" then c.csv else c.excel, ext);
    } else if formato == "txt_plano" || ext == "txt" {
      r := ResultadoTxt(c.texto);
    } else {
      r := Procesado(false, 0, ["Formato de archivo no reconocido"], None, None, []);
    }
  }

  // ---------------------------------------------------------------- upload

  /** The `auto_detect` rule: by extension, CSV/Excel when nothing matches. */
  function ResolverFormato(formatoArchivo: string, nombre: string): (r: string)
    ensures formatoArchivo != "auto_detect" ==> r == formatoArchivo
    ensures formatoArchivo == "auto_detect" ==> r in ["xml", "csv_excel", "txt_plano"]
    ensures formatoArchivo == "auto_detect" ==> (r == "xml" <==> Extension(nombre) == "xml")
    ensures formatoArchivo == "auto_detect" ==> (r == "txt_plano" <==> Extension(nombre) == "txt")
    ensures formatoArchivo == "auto_detect" ==> (r == "csv_excel" <==> Extension(nombre) !in ["xml", "txt"])
  {
    if formatoArchivo != "auto_detect" then formatoArchivo
    else
      var ext := Extension(nombre);
      if ext == "xml" then "xml"
      else if ext in ["csv", "xlsx", "xls"] then "csv_excel"
      else if ext == "txt" then "txt_plano"
      else "csv_excel"
  }

  /** An auto-detected upload whose extension is neither `xml` nor `txt` goes to the
      CSV/Excel processor (the pandas CSV reader for `csv`, the Excel reader for
      everything else), never to the "unrecognised format" reply. */
  lemma AutoDetectOtraExtension(nombre: string, c: Contenido)
    requires Extension(nombre) != "xml" && Extension(nombre) != "txt"
    ensures var ext := Extension(nombre);
            ProcesarPorTipo(ResolverFormato("auto_detect", nombre), nombre, c)
            == ResultadoCsvExcel(if ext == "csv" then c.csv else c.excel, ext)
  {
    var f := ResolverFormato("auto_detect", nombre);
    assert f == "csv_excel";
    assert f != "xml";
    assert f in ["csv_excel", "plantilla51"];
  }

  /** `cliente_nombres.get(clienteId, "Cliente Desconocido")`: three known clients,
      each with its own name, and the default for any other id. */
  function ClienteNombre(clienteId: string): (r: string)
    ensures r == "Cliente Desconocido" <==> clienteId !in {"1", "2", "3"}
    ensures clienteId == "1" ==> r == "Comiagro"
  {
    match clienteId
    case "1" => "Comiagro"
    case "2" => "Olímpica"
    case "3" => "Cliente Regional"
    case _ => "Cliente Desconocido"
  }

  /** The batch state for a count of simulated errors. */
  function EstadoPorErrores(n: nat): (r: string)
    ensures r == "Completado" <==> n == 0
    ensures r == "Completado con Advertencias" <==> 1 <= n < 5
    ensures r == "Error" <==> n >= 5
  {
    if n == 0 then "Completado" else if n < 5 then "Completado con Advertencias" else "Error"
  }

  /** Simulated error number i (from 0): a product warning on even i, a buyer-NIT
      error on odd i, always at row i + 1. */
  function ErrorSimulado(loteId: string, i: nat): ErrorDoc {
    if i % 2 == 0 then
      ErrorDoc(loteId, i + 1, Some("PRODUCTO"), "Producto en fila " + NatToString(i + 1) + ": No se encontró código BMC con IA", "WARNING")
    else
      ErrorDoc(loteId, i + 1, Some("NIT_COMPRADOR"), "NIT en fila " + NatToString(i + 1) + ": No encontrado en DIAN", "ERROR")
  }

  /** The DIAN exception created beside simulated error number i. */
  function ExcepcionSimulada(loteId: string, i: nat): Excepcion {
    Excepcion(loteId, i + 1, "12345678" + NatToString(i), "Cliente " + NatToString(i + 1) + " SAS",
              "No_Encontrado", "Pendiente", None, None)
  }

  function ErroresSimulados(loteId: string, n: nat): (r: seq<ErrorDoc>)
    ensures |r| == n
    ensures forall i :: 0 <= i < n ==> r[i].loteId == loteId && r[i].fila == i + 1
    ensures forall i :: 0 <= i < n && i % 2 == 0 ==> r[i].campo == Some("PRODUCTO") && r[i].severidad == "WARNING"
    ensures forall i :: 0 <= i < n && i % 2 == 1 ==> r[i].campo == Some("NIT_COMPRADOR") && r[i].severidad == "ERROR"
  {
    seq(n, i requires 0 <= i < n => ErrorSimulado(loteId, i))
  }

  /** One exception per odd error number, in order: exception k belongs to error 2k+1. */
  function ExcepcionesSimuladas(loteId: string, n: nat): (r: seq<Excepcion>)
    ensures |r| == n / 2
  {
    seq(n / 2, k requires 0 <= k < n / 2 => ExcepcionSimulada(loteId, 2 * k + 1))
  }

  /** Every simulated exception is an unresolved "not found" at an even row, and the
      simulated error at that same row is the buyer-NIT error. */
  lemma ExcepcionesConSuError(loteId: string, n: nat, k: nat)
    requires k < n / 2
    ensures var e := ExcepcionesSimuladas(loteId, n)[k];
            var err := ErroresSimulados(loteId, n)[2 * k + 1];
            e.filaOrigen == 2 * k + 2 && e.filaOrigen % 2 == 0 && e.filaOrigen <= n
            && e.estadoValidacion == "No_Encontrado" && e.estadoGestion == "Pendiente"
            && err.fila == e.filaOrigen && err.campo == Some("NIT_COMPRADOR") && err.severidad == "ERROR"
  {
    assert (2 * k + 1) % 2 == 1;
  }

  function ErroresDeArchivo(loteId: string, mensajes: seq<string>): (r: seq<ErrorDoc>)
    ensures |r| == |mensajes|
    ensures forall i :: 0 <= i < |r| ==> r[i].fila == 0 && r[i].campo == Some("ARCHIVO") && r[i].mensaje == mensajes[i]
  {
    seq(|mensajes|, i requires 0 <= i < |mensajes| => ErrorDoc(loteId, 0, Some("ARCHIVO"), mensajes[i], "ERROR"))
  }

  /** How an upload's batch and documents follow from the processor's reply `p`: on
      success the batch counts `p`'s records and, for the simulated formats, one error
      per twenty records (with its error and exception documents), and its state
      follows from its error count; on failure it counts
      no record, one error, and one ARCHIVO error document per message. */
  predicate SegunProcesado(r: Carga, p: Procesado, loteId: string) {
    && (p.success ==> r.lote.registrosTotales == p.registros && r.lote.errores >= 0
                      && r.lote.estado == EstadoPorErrores(r.lote.errores))
    && (p.success && r.lote.formato in FORMATOS_SIMULADOS ==>
          r.lote.errores == p.registros / 20
          && r.errores == ErroresSimulados(loteId, p.registros / 20)
          && r.excepciones == ExcepcionesSimuladas(loteId, p.registros / 20))
    && (p.success && r.lote.formato !in FORMATOS_SIMULADOS ==>
          r.lote.errores == 0 && r.errores == [] && r.excepciones == [])
    && (!p.success ==>
          r.lote.registrosTotales == 0 && r.lote.errores == 1 && r.lote.estado == "Error"
          && r.errores == ErroresDeArchivo(loteId, p.errores) && r.excepciones == [])
  }

  /** What `cargar_archivo` writes and replies for an upload within the size limit. */
  function CargaEsperada(nombre: string, clienteId: string, formatoArchivo: string, c: Contenido, loteId: string): (r: Carga)
    ensures r.lote.estado in {"Completado", "Completado con Advertencias", "Error"}
    ensures r.lote.estado == "Completado" <==> r.lote.errores == 0
    ensures r.lote.estado == "Completado con Advertencias" ==> 1 <= r.lote.errores <= 4
    ensures r.lote.errores > r.lote.registrosTotales ==>
              r.lote.registrosTotales == 0 && r.lote.errores == 1 && r.lote.estado == "Error"
    ensures r.lote.errores * 20 <= r.lote.registrosTotales || r.lote.registrosTotales == 0
    ensures |r.excepciones| == r.lote.errores / 2 || (r.lote.registrosTotales == 0 && r.excepciones == [])
    ensures r.respuesta.estado == r.lote.estado && r.respuesta.registrosEstimados == r.lote.registrosTotales
    ensures r.lote.formato == ResolverFormato(formatoArchivo, nombre)
    ensures r.lote.cliente == ClienteNombre(clienteId) && r.lote.id == loteId && r.lote.nombreArchivo == nombre
    ensures r.lote.formato !in FORMATOS_SIMULADOS ==> r.excepciones == [] && r.lote.estado != "Completado con Advertencias"
    ensures SegunProcesado(r, ProcesarPorTipo(ResolverFormato(formatoArchivo, nombre), nombre, c), loteId)
  {
    var formato := ResolverFormato(formatoArchivo, nombre);
    var p := ProcesarPorTipo(formato, nombre, c);
    var n := if p.success && formato in FORMATOS_SIMULADOS then p.registros / 20 else 0;
    var registros := if p.success then p.registros else 0;
    var estado := if p.success then EstadoPorErrores(n) else "Error";
    var lote := LoteDoc(loteId, nombre, ClienteNombre(clienteId), formato, estado, registros,
                        if p.success then n else 1, Some(p.tipo.GetOr(formato)));
    Carga(
      lote,
      if p.success then ErroresSimulados(loteId, n) else ErroresDeArchivo(loteId, p.errores),
      ExcepcionesSimuladas(loteId, n),
      ["Archivo recibido. Tipo: " + formato,
       "Procesamiento completado. Estado: " + estado + ". Registros: " + NatToString(registros)],
      RespuestaCarga(loteId, nombre, estado, registros))
  }

  /** `POST /api/facturas/cargar`. The Firestore document id of the new batch is the
      parameter `loteId`. */
  method CargarArchivo(nombre: string, tamano: int, clienteId: string, formatoArchivo: string, c: Contenido, loteId: string)
    returns (r: Result<Carga, HttpError>)
    ensures tamano > MAX_BYTES ==> r == Failure(HttpError(413, "Archivo muy grande"))
    ensures tamano <= MAX_BYTES ==> r == Success(CargaEsperada(nombre, clienteId, formatoArchivo, c, loteId))
  {
    if tamano > MAX_BYTES {
      return Failure(HttpError(413, "Archivo muy grande"));
    }
    var formato := ResolverFormato(formatoArchivo, nombre);
    var p := ProcesarArchivoPorTipo(formato, nombre, c);
    var registros: nat;
    var nErrores: nat;
    var estado: string;
    var errores: seq<ErrorDoc> := [];
    var excepciones: seq<Excepcion> := [];
    if p.success {
      registros := p.registros;
      estado := "Completado";
      nErrores := 0;
      if formato in FORMATOS_SIMULADOS {
        var n := p.registros / 20;
        errores, excepciones := SimularErrores(loteId, n);
        nErrores := n;
        estado := EstadoPorErrores(n);
      }
    } else {
      registros := 0;
      nErrores := 1;
      estado := "Error";
      errores := RegistrarFallos(loteId, p.errores);
    }
    var lote := LoteDoc(loteId, nombre, ClienteNombre(clienteId), formato, estado, registros, nErrores,
                        Some(p.tipo.GetOr(formato)));
    var logs := ["Archivo recibido. Tipo: " + formato,
                 "Procesamiento completado. Estado: " + estado + ". Registros: " + NatToString(registros)];
    r := Success(Carga(lote, errores, excepciones, logs, RespuestaCarga(loteId, nombre, estado, registros)));
  }

  /** The loop that writes n simulated errors and, for every odd one, a DIAN exception. */
  method SimularErrores(loteId: string, n: nat) returns (errores: seq<ErrorDoc>, excepciones: seq<Excepcion>)
    ensures errores == ErroresSimulados(loteId, n)
    ensures excepciones == ExcepcionesSimuladas(loteId, n)
  {
    errores := [];
    excepciones := [];
    for i := 0 to n
      invariant errores == ErroresSimulados(loteId, i)
      invariant excepciones == ExcepcionesSimuladas(loteId, i)
    {
      errores := errores + [ErrorSimulado(loteId, i)];
      if i % 2 == 1 {
        excepciones := excepciones + [ExcepcionSimulada(loteId, i)];
        assert 2 * (i / 2) + 1 == i;
      } else {
        assert ExcepcionesSimuladas(loteId, i + 1) == ExcepcionesSimuladas(loteId, i);
      }
    }
  }

  /** The loop that writes one ARCHIVO error per processing message. */
  method RegistrarFallos(loteId: string, mensajes: seq<string>) returns (errores: seq<ErrorDoc>)
    ensures errores == ErroresDeArchivo(loteId, mensajes)
  {
    errores := [];
    for i := 0 to |mensajes|
      invariant errores == ErroresDeArchivo(loteId, mensajes[..i])
    {
      errores := errores + [ErrorDoc(loteId, 0, Some("ARCHIVO"), mensajes[i], "ERROR")];
    }
    assert mensajes[..|mensajes|] == mensajes;
  }

  // ---------------------------------------------------------------- batch detail

  /** `error.get('campo', 'OTROS')`. */
  function CampoDe(e: ErrorDoc): string {
    e.campo.GetOr("OTROS")
  }

  /** The errors of field k, in their original order. */
  function Grupo(errores: seq<ErrorDoc>, k: string): (r: seq<ErrorDoc>)
    ensures |r| <= |errores|
    ensures forall x :: x in r ==> x in errores && CampoDe(x) == k
  {
    if |errores| == 0 then []
    else Grupo(errores[..|errores| - 1], k) + (if CampoDe(errores[|errores| - 1]) == k then [errores[|errores| - 1]] else [])
  }

  /** The fields in order of first appearance: the key order of the Python dict. */
  function OrdenDeCampos(errores: seq<ErrorDoc>): (r: seq<string>)
    ensures forall k :: k in r <==> exists i :: 0 <= i < |errores| && CampoDe(errores[i]) == k
    ensures forall i, j :: 0 <= i < j < |r| ==> r[i] != r[j]
  {
    if |errores| == 0 then []
    else
      var init := errores[..|errores| - 1];
      var o := OrdenDeCampos(init);
      assert forall i :: 0 <= i < |init| ==> init[i] == errores[i];
      if CampoDe(errores[|errores| - 1]) in o then o else o + [CampoDe(errores[|errores| - 1])]
  }

  /** The grouping `errores_por_tipo`: one entry per field that occurs. */
  function Agrupados(errores: seq<ErrorDoc>): map<string, seq<ErrorDoc>> {
    map k | k in OrdenDeCampos(errores) :: Grupo(errores, k)
  }

  /** Every error is in the group of its own field, and a field's group is empty
      exactly when the field does not occur. */
  lemma {:induction false} GrupoCompleto(errores: seq<ErrorDoc>, k: string)
    ensures forall i :: 0 <= i < |errores| && CampoDe(errores[i]) == k ==> errores[i] in Grupo(errores, k)
    ensures Grupo(errores, k) == [] <==> k !in OrdenDeCampos(errores)
  {
    if |errores| > 0 {
      var init := errores[..|errores| - 1];
      GrupoCompleto(init, k);
      assert forall i :: 0 <= i < |init| ==> init[i] == errores[i];
    }
  }

  lemma PasoAgrupar(errores: seq<ErrorDoc>, e: ErrorDoc)
    ensures var g := Agrupados(errores);
            var k := CampoDe(e);
            Agrupados(errores + [e]) == g[k := (if k in g then g[k] else []) + [e]]
  {
    var g := Agrupados(errores);
    var k := CampoDe(e);
    var h := g[k := (if k in g then g[k] else []) + [e]];
    var a := Agrupados(errores + [e]);
    ClavesPaso(errores, e);
    forall k' | k' in a.Keys
      ensures a[k'] == h[k']
    {
      GrupoPaso(errores, e, k');
      if k' == k {
        GrupoCompleto(errores, k');
      }
    }
  }

  /** One error more adds at most its own field to the grouping's keys. */
  lemma ClavesPaso(errores: seq<ErrorDoc>, e: ErrorDoc)
    ensures Agrupados(errores + [e]).Keys == Agrupados(errores).Keys + {CampoDe(e)}
  {
    PasoOrden(errores, e);
  }

  /** One error more is appended to its own field's group and leaves the others. */
  lemma GrupoPaso(errores: seq<ErrorDoc>, e: ErrorDoc, k: string)
    ensures Grupo(errores + [e], k) == Grupo(errores, k) + (if CampoDe(e) == k then [e] else [])
  {
    var s := errores + [e];
    assert s[..|s| - 1] == errores;
  }

  /** One loop step adds the error's field to the key order iff it is new. */
  lemma PasoOrden(errores: seq<ErrorDoc>, e: ErrorDoc)
    ensures OrdenDeCampos(errores + [e]) ==
              if CampoDe(e) in OrdenDeCampos(errores) then OrdenDeCampos(errores)
              else OrdenDeCampos(errores) + [CampoDe(e)]
    ensures CampoDe(e) in Agrupados(errores) <==> CampoDe(e) in OrdenDeCampos(errores)
  {
    var s := errores + [e];
    assert s[..|s| - 1] == errores;
  }

  /** One iteration of the loop over the prefix `errores[..i]`. */
  lemma PasoPrefijo(errores: seq<ErrorDoc>, i: nat)
    requires i < |errores|
    ensures var g := Agrupados(errores[..i]);
            var k := CampoDe(errores[i]);
            Agrupados(errores[..i + 1]) == g[k := (if k in g then g[k] else []) + [errores[i]]]
    ensures OrdenDeCampos(errores[..i + 1]) ==
              if CampoDe(errores[i]) in OrdenDeCampos(errores[..i]) then OrdenDeCampos(errores[..i])
              else OrdenDeCampos(errores[..i]) + [CampoDe(errores[i])]
    ensures CampoDe(errores[i]) in Agrupados(errores[..i]) <==> CampoDe(errores[i]) in OrdenDeCampos(errores[..i])
  {
    assert errores[..i + 1] == errores[..i] + [errores[i]];
    PasoAgrupar(errores[..i], errores[i]);
    PasoOrden(errores[..i], errores[i]);
  }

  /** The loop that fills `errores_por_tipo`. */
  method AgruparPorCampo(errores: seq<ErrorDoc>) returns (grupos: map<string, seq<ErrorDoc>>, orden: seq<string>)
    ensures grupos == Agrupados(errores) && orden == OrdenDeCampos(errores)
  {
    grupos := map[];
    orden := [];
    for i := 0 to |errores|
      invariant grupos == Agrupados(errores[..i])
      invariant orden == OrdenDeCampos(errores[..i])
    {
      var tipo := CampoDe(errores[i]);
      PasoPrefijo(errores, i);
      if tipo !in grupos {
        // the new field starts an empty group, which receives this error
        grupos := grupos[tipo := [] + [errores[i]]];
        orden := orden + [tipo];
      } else {
        grupos := grupos[tipo := grupos[tipo] + [errores[i]]];
      }
    }
    assert errores[..|errores|] == errores;
  }

  /** A batch can be downloaded once it completed, with or without warnings. */
  predicate PuedeDescargar(estado: string)
    ensures PuedeDescargar(estado) ==> estado != "Error"
  {
    estado in {"Completado", "Completado con Advertencias"}
  }

  /** A batch whose simulated errors number fewer than five can be downloaded, and
      one with five or more cannot. */
  lemma DescargableSegunErrores(n: nat)
    ensures PuedeDescargar(EstadoPorErrores(n)) <==> n < 5
  {
  }

  datatype Detalle = Detalle(
    lote: LoteDoc,
    logs: seq<string>,
    errores: seq<ErrorDoc>,
    erroresPorTipo: map<string, seq<ErrorDoc>>,
    ordenTipos: seq<string>,
    puedeDescargar: bool)

  /** `GET /api/facturas/lotes/{id}`: the stored batch (None when the id is unknown),
      its logs and its errors. */
  method ObtenerDetalleLote(lote: Option<LoteDoc>, logs: seq<string>, errores: seq<ErrorDoc>) returns (r: Result<Detalle, HttpError>)
    ensures lote.None? ==> r == Failure(HttpError(404, "Lote no encontrado"))
    ensures lote.Some? ==> r.Success? && r.value.lote == lote.value && r.value.errores == errores && r.value.logs == logs
    ensures r.Success? ==> r.value.erroresPorTipo == Agrupados(errores) && r.value.ordenTipos == OrdenDeCampos(errores)
    ensures r.Success? ==> (r.value.puedeDescargar <==> r.value.lote.estado in {"Completado", "Completado con Advertencias"})
  {
    if lote.None? {
      return Failure(HttpError(404, "Lote no encontrado"));
    }
    var grupos, orden := AgruparPorCampo(errores);
    r := Success(Detalle(lote.value, logs, errores, grupos, orden, PuedeDescargar(lote.value.estado)));
  }

  // ---------------------------------------------------------------- template download

  const ENCABEZADOS: seq<string> := [
    "NOMBRE USUARIO (CLIENTE DEL CLIENTE)", "NIT USUARIO (CLIENTE DEL CLIENTE)",
    "CIUDAD DE ENTREGA DEL PRODUCTO", "FACT NRO", "FECHA", "FORMA DE PAGO", "PRODUCTO",
    "PRESENTACION", "CANTIDAD", "VALOR UNITARIO", "TOTAL", "% IVA PRODUCTO"]

  /** The generated workbook: sheet title, header row, number of sample rows, file name. */
  datatype Plantilla = Plantilla(hoja: string, encabezados: seq<string>, filasEjemplo: nat, nombreArchivo: string)

  /** `range(2, min(registros + 2, 10))` has this many rows. */
  function FilasEjemplo(registros: int): (n: nat)
    ensures n <= 8
    ensures registros >= 0 ==> n == (if registros < 8 then registros else 8)
  {
    var fin := if registros + 2 < 10 then registros + 2 else 10;
    if fin <= 2 then 0 else fin - 2
  }

  /** `GET /api/facturas/lotes/{id}/descargar`: the same states that make the detail
      say `puedeDescargar` are the ones that let the download through. */
  function DescargarPlantilla(loteId: string, lote: Option<LoteDoc>): (r: Result<Plantilla, HttpError>)
    ensures r.Success? <==> lote.Some? && PuedeDescargar(lote.value.estado)
    ensures r.Failure? ==> r.error == HttpError(404, "Plantilla no disponible")
    ensures r.Success? ==> |r.value.encabezados| == 12 && r.value.filasEjemplo == FilasEjemplo(lote.value.registrosTotales)
    ensures r.Success? ==> r.value.filasEjemplo <= 8
  {
    if lote.None? || !PuedeDescargar(lote.value.estado) then Failure(HttpError(404, "Plantilla no disponible"))
    else Success(Plantilla("Plantilla Comiagro", ENCABEZADOS, FilasEjemplo(lote.value.registrosTotales),
                           "plantilla_comiagro_lote_" + loteId + ".xlsx"))
  }
}
