# Armorum invoice back office: a verified model

Armorum is an administrative dashboard for a Colombian invoice-processing back office.
Users upload supplier invoice files as batches ("lotes"). They map the columns of custom
files onto the Comiagro template and homologate unmatched products against the BMC
catalogue. They also resolve buyer ("tercero") exceptions that the DIAN (tax authority)
validation raised.

This project models the rules behind those screens and the three Python services behind
them:

- **FastAPI service** (`backend/main.py`):
  - dispatches a file to its parser by format and counts records per format;
  - auto-detects the format and derives the batch state from the simulated errors;
  - paginates the batch list and groups a batch's errors by field;
  - guards the template download;
  - updates exception states.
- **Older FastAPI service** (`backend/app/main.py`): the Plantilla 51 error rule, a stricter
  download guard and the demo exceptions.
- **Flask service** (`app.py`): the extension whitelist, upload validation, the file-type
  map, the processing state rule and the SIMONA download guard.
- **React client:**
  - the three registries (batches, exceptions, products) as classes whose methods update
    one record by id;
  - the upload and manual-mapping forms;
  - the tables' button predicates and colour lookups;
  - the product statistics;
  - the AI-suggestion and creation dialogs;
  - the batch-detail dialog and the dashboard cards;
  - the mock data of `src/services/api.js` that the client runs on.

**How each kind of code is modelled:**

- Pure lookups and derivations are functions. Their contracts state the lookup in both
  directions, with lemmas that relate them to each other.
- State held by a React context or a component is a `class` whose fields the handlers
  reassign. Each handler is specified against a function on sequences, for example
  `ctx.productos == Homologar(old(ctx.productos), id, codigo)`, and lemmas prove
  properties of those functions.
- Loops in the services are methods whose loop invariants tie them to a reference
  function:
  - the XML tag count;
  - the simulated-error loop;
  - the grouping of errors by field;
  - the demo exceptions of the older service.
- Filters (`.filter(...)`, list comprehensions) are recursive functions. Each states that
  its result keeps only matching elements in their original order (`Secuencias.Subsecuencia`).
  A companion lemma gives each element's multiplicity. Counts (`.length`, `len([...])`) are
  stated as filter lengths or as the number of matching positions.
- Strings keep the source's own spellings. Each layer's states are named constants, so
  the backend's `No_Encontrado` and the client's `No Encontrado` stay distinct.

**Where the services disagree with each other, the model follows each one's code:**

- `backend/main.py` records 1 error against 0 records when processing a file fails, so
  a batch's error count can exceed its record count. `BackendMain.CargaEsperada` states
  exactly when this happens.
- The three services and the client apply different download rules:
  - `backend/main.py` and the batch table allow "Completado" and "Completado con
    Advertencias";
  - `backend/app/main.py` allows only "Completado";
  - Flask allows `COMPLETADO_EXITOSO` and `COMPLETADO_CON_ADVERTENCIAS`.

  `TablaLotes.DescargaComoBackendMain` and `BackendApp.AdvertenciasSoloEnUnBackend` state
  these differences.

## Model

| member | source | states |
|---|---|---|
| BackendCommon.Filtrar | backend/main.py:325-327 | With an active filter the result is the stored batches in that state, in store order (`Secuencias.Subsecuencia`), and nothing else; with no filter (or an empty one) the list is unchanged. `FiltrarCuenta` gives the multiplicities. |
| BackendCommon.FiltrarCuenta | backend/main.py:325-327 | Under an active filter each batch in the requested state is kept as often as it is stored, and every other batch not at all. |
| BackendCommon.FiltrarMiembro | backend/main.py:325-327 | A batch is kept by an active filter iff it is stored and its state equals the filter. |
| BackendCommon.ObtenerLotes | backend/main.py:316-352 | The listing fails with 500 exactly when `limit` is 0 (the page count divides by it) or the query limit `limit*page` is negative. Any other pair succeeds, including a negative page with a negative limit, which gives an empty page. The page is exactly `Paginar` of the state filter applied to the first `limit*page` stored batches. With a positive limit, a page holds at most `limit` batches, `totalRegistros` is at most `limit*page`, and every listed batch has the requested state. |
| BackendCommon.Leidos | backend/main.py:323 | The batches read are the first `min(limit*page, |store|)` stored documents: a prefix of the store, none for a zero limit, and the whole store when it is no longer. |
| BackendCommon.Paginar | backend/main.py:330-352 | The page echoes `page` and `limit` and counts the whole filtered list. For a positive page and limit its batches are the clamped window `[(page-1)*limit, page*limit)` of that list, at most `limit` of them. A negative limit with a page of at most 0 gives an empty page. |
| BackendCommon.FiltrarPrefijo | backend/main.py:326-327 | Filtering a prefix of the store gives a prefix of the filtered store. |
| BackendCommon.PaginaEscritaEsPrefijo | backend/main.py:323-333 | The page as written is a prefix of the corrected page. It is the same page when no state filter is given or the store holds at most `limit*page` batches. |
| BackendCommon.TotalPaginasEsTecho | backend/main.py:347-348 | `totalPaginas` is the ceiling of the record count over `limit`. |
| BackendCommon.TotalPaginasAcotado | backend/main.py:323-348 | As written, the reported page count never exceeds the requested page. |
| BackendCommon.PaginacionPierdeSegundaPagina | backend/main.py:323-348 | With 25 stored batches, page 1 of size 20 reports one page and 20 records, so the remaining 5 batches are never announced. |
| BackendCommon.ObtenerLotesCorregido | backend/main.py:316-352 | The corrected listing serves only a positive `page` and `limit`. It counts every matching stored batch in `totalRegistros`. |
| BackendCommon.CorregidoCubreTodo | backend/main.py:330-348 | In the corrected listing, the k-th matching batch appears at position `k % limit` of page `k / limit + 1`, and that page is within `totalPaginas`. |
| BackendCommon.ContarPendientes | backend/main.py:478 | The count is the number of positions holding an exception in "Pendiente" (`Secuencias.Posiciones`), so at most the number of exceptions. |
| BackendCommon.EstadisticasExcepciones | backend/app/main.py:270-272 | `total` is the number of exceptions and `pendientes` the number of positions holding one in "Pendiente". `pendientes + resueltas == total` and `resueltas >= 0`. There are no pending exceptions iff none is in "Pendiente". |
| BackendCommon.SinPendientes | backend/main.py:477-479 | The pending count is zero iff no exception's management state is "Pendiente". |
| BackendCommon.AccionMap | backend/main.py:509-514 | Exactly the four actions corregir, crear, ignorar and reintentar are known, and none of them leads back to "Pendiente", so every known action takes the exception out of the pending count. |
| BackendCommon.AccionMapInyectiva | backend/main.py:509-514 | Distinct known actions lead to distinct management states. |
| BackendCommon.Buscar | backend/main.py:499-504 | The lookup finds an exception iff one with that id is stored, and what it returns is stored and has that id. |
| BackendCommon.Aplicar | backend/main.py:519-527 | The update sets the management state, copies notes and correction data from the payload when present, and leaves every other field alone. |
| BackendCommon.ActualizarEstadoTercero | backend/main.py:493-545 | A missing exception gives 404, then an unknown action gives 400, then a failed write gives 500. Success holds exactly otherwise. It echoes the id and action, and reports the mapped new state and the old validation state. The updated record is `Aplicar` of the stored exception with that new state and the payload. |
| BackendCommon.EstadoActualIgnorado | backend/main.py:506-527 | The outcome does not depend on the exception's current management state: an already handled exception takes any action again with the same result. |
| BackendCommon.BuscarTrasCambio | backend/main.py:499-504 | Changing the management state of the first exception with an id leaves the lookup of that id pointing at the changed record. |
| BackendMain.ContarFacturas | backend/main.py:70-72 | The count is the number of positions whose tag names an invoice (`Secuencias.Posiciones`), so at most the number of elements. |
| BackendMain.ContarFacturasCero | backend/main.py:70-76 | The count is zero iff no element's tag names an invoice. |
| BackendMain.ContarElementosFactura | backend/main.py:70-72 | The iteration over the XML tree returns the invoice-tag count. |
| BackendMain.ResultadoXml | backend/main.py:59-90 | Success holds iff the document parsed, with no errors and type XML. `registros` is then the invoice-tag count when that is positive, else the number of root children when that is positive, else 1. A parse error gives 0 records and one error. |
| BackendMain.ProcesarXml | backend/main.py:59-90 | The XML handler computes `ResultadoXml`. |
| BackendMain.ResultadoCsvExcel | backend/main.py:92-127 | Success holds iff the frame has rows and columns, iff there are no errors. The record count is the row count, and at most the first 10 columns are reported. A reader error gives "Error procesando EXT: …". |
| BackendMain.NoVacias | backend/main.py:136-137 | The non-blank lines are stripped and non-empty, and there are no more of them than there are lines. |
| BackendMain.NoVaciasVacia | backend/main.py:136-140 | There are no non-blank lines iff every line is whitespace. |
| BackendMain.StripIdempotente | backend/main.py:136 | Stripping twice is stripping once. |
| BackendMain.Estructura | backend/main.py:143-152 | The label is "Delimitado por \|" iff the first line holds a bar. It is "Delimitado por tabs" iff a tab but no bar, "Posiblemente CSV" iff a comma but neither, and "Texto libre" iff none of the three. |
| BackendMain.ResultadoTxt | backend/main.py:129-167 | The record count is the number of non-blank lines, and success holds iff some line is not blank. The structure label is `Estructura` of the first non-blank line, or "Texto libre" when there is none. A read error gives "Error procesando TXT: …". |
| BackendMain.ProcesarPorTipo | backend/main.py:33-57 | With `ext` the lower-cased extension: "xml" as format or extension gives the XML result. Otherwise csv_excel/plantilla51 or csv/xlsx/xls gives the CSV/Excel result, read as CSV iff `ext` is "csv". Otherwise txt_plano or txt gives the text result. Anything else fails with "Formato de archivo no reconocido". Success holds iff there are no errors. |
| BackendMain.ProcesarArchivoPorTipo | backend/main.py:33-57 | The dispatcher returns what `ProcesarPorTipo`'s branch for the format and extension selects. |
| BackendMain.Extension | backend/main.py:37 | The extension holds no dot and is the lower-cased text after the last dot, whether lower-casing or splitting comes first. |
| BackendMain.EtiquetaConPalabra | backend/main.py:71 | A tag containing "factura" or "invoice" in any letter case counts as an invoice tag. |
| BackendMain.ResolverFormato | backend/main.py:194-204 | Any hint other than `auto_detect` is kept. Under `auto_detect` the result is xml iff the extension is `xml`, txt_plano iff it is `txt`, and csv_excel for every other extension. |
| BackendMain.ClienteNombre | backend/main.py:191-212 | Ids "1", "2" and "3" name the three clients, "1" being Comiagro, and any other id gives "Cliente Desconocido". |
| BackendMain.AutoDetectOtraExtension | backend/main.py:194-204 | An auto-detected file whose extension is neither xml nor txt is processed as CSV/Excel. |
| BackendMain.EstadoPorErrores | backend/main.py:271 | 0 errors gives "Completado", 1 to 4 give "Completado con Advertencias", and 5 or more give "Error". |
| BackendMain.ErroresSimulados | backend/main.py:235-258 | The simulation writes one error per simulated index i, on row i + 1 of that batch. An even i is a PRODUCTO warning and an odd i a NIT_COMPRADOR error. |
| BackendMain.ExcepcionesSimuladas | backend/main.py:237-268 | One DIAN exception is written per odd index, so there are `n / 2` of them. |
| BackendMain.ExcepcionesConSuError | backend/main.py:237-268 | The k-th exception is "No_Encontrado"/"Pendiente" on the even row `2k+2`, which carries the matching NIT_COMPRADOR error. |
| BackendMain.ErroresDeArchivo | backend/main.py:277-279 | On a processing failure each message is recorded as an ARCHIVO error on row 0. |
| BackendMain.CargaEsperada | backend/main.py:210-313 | On success the record count is the processor's and the state is `EstadoPorErrores` of the batch's error count: Completado for 0 errors, Completado con Advertencias for 1-4, Error for 5 or more. The three simulated formats get `registros/20` errors and exactly the simulated error and exception lists; other formats get none. On a processing failure: 0 records, 1 error, state Error, one error document per processor message and no exceptions. The reply echoes state and record count. |
| BackendMain.CargarArchivo | backend/main.py:173-313 | An upload over the size limit is refused with 413; any other upload yields `CargaEsperada`. |
| BackendMain.SimularErrores | backend/main.py:235-268 | The loop writes exactly `ErroresSimulados` and `ExcepcionesSimuladas`. |
| BackendMain.RegistrarFallos | backend/main.py:277-279 | The loop writes exactly `ErroresDeArchivo`. |
| BackendMain.Grupo | backend/main.py:380-385 | A group holds only errors of that field. |
| BackendMain.OrdenDeCampos | backend/main.py:380-385 | The group keys are exactly the fields that occur, each once, in order of first occurrence. |
| BackendMain.GrupoCompleto | backend/main.py:380-385 | Every error lands in its field's group, and a group is empty iff its field never occurs. |
| BackendMain.PasoAgrupar | backend/main.py:380-385 | One loop step appends the error to its field's group and leaves the other groups alone. |
| BackendMain.ClavesPaso | backend/main.py:382-384 | One error more adds exactly its own field to the grouping's keys. |
| BackendMain.GrupoPaso | backend/main.py:380-385 | One error more is appended to its own field's group and leaves every other group unchanged. |
| BackendMain.PasoOrden | backend/main.py:382-384 | One loop step appends the error's field to the key order iff the field is new. |
| BackendMain.PasoPrefijo | backend/main.py:380-385 | The grouping and key order of a one-longer prefix follow from the shorter one by a single step. |
| BackendMain.AgruparPorCampo | backend/main.py:378-385 | The grouping loop returns the grouped map and the key order. |
| BackendMain.ObtenerDetalleLote | backend/main.py:354-396 | A missing batch gives 404. Otherwise the detail carries the batch, logs, errors and their grouping, and `puedeDescargar` holds iff the state is Completado or Completado con Advertencias. |
| BackendMain.FilasEjemplo | backend/main.py:430-431 | The template gets `min(registros, 8)` sample rows, never more than 8. |
| BackendMain.DescargarPlantilla | backend/main.py:398-454 | The download succeeds iff the batch exists in a downloadable state, otherwise 404 "Plantilla no disponible". A template has 12 headers and `FilasEjemplo` of the batch's record count as sample rows, at most 8. |
| BackendMain.PuedeDescargar | backend/main.py:394 | A downloadable batch is never in state Error. |
| BackendMain.DescargableSegunErrores | backend/main.py:271 | A batch whose state comes from its simulated errors is downloadable iff it has fewer than five. |
| BackendApp.ClienteNombre | backend/app/main.py:49-54 | Ids "1", "2" and "3" name this service's three clients, "1" being Comiagro, and any other id gives "Cliente Desconocido". |
| BackendApp.ClientesSegunServicio | backend/app/main.py:49 | The two services give a client the same name exactly for id "1" and for unknown ids; "2" and "3" are named differently. |
| BackendApp.MarcoLeido | backend/app/main.py:67-72 | A name without an `.xlsx`, `.xls` or `.csv` suffix (case-sensitive) gives an empty frame. |
| BackendApp.RegistrosEstimados | backend/app/main.py:74 | An empty frame counts as 50 records, otherwise the row count. |
| BackendApp.ErroresPlantilla51 | backend/app/main.py:79-81 | Plantilla 51 errors are 3 for an empty frame, `rows div 10` below 50 rows and 5 from 50 rows on, so zero iff fewer than 10 rows. |
| BackendApp.ExcepcionesDemo | backend/app/main.py:84-103 | The loop creates one exception per index. |
| BackendApp.ErroresDemo | backend/app/main.py:84-103 | The loop creates one error per index. |
| BackendApp.ExcepcionesDemoConError | backend/app/main.py:84-103 | Exception i is on row 10+15i, is Pendiente, and is No_Encontrado for even i and Inconsistente for odd i. Its error is on the same row, and is NIT_COMPRADOR exactly for No_Encontrado. |
| BackendApp.CargaEsperada | backend/app/main.py:32-135 | The state is Error iff there are errors (at most 5), else Completado. An unreadable frame gives Error with 1 error, 0 records and no documents. A read frame gives its estimated record count and `ErroresPlantilla51` errors for Plantilla 51, 0 otherwise. The first min(errors, 3) demo errors and exceptions are written. |
| BackendApp.CargarArchivo | backend/app/main.py:32-135 | An upload over the size limit is refused with 413; any other upload yields `CargaEsperada`. |
| BackendApp.CrearExcepcionesDemo | backend/app/main.py:84-103 | The loop writes exactly `ExcepcionesDemo` and `ErroresDemo`. |
| BackendApp.DemoPaso | backend/app/main.py:84-103 | One more turn of the loop appends exactly the i-th demonstration exception and its error to what the earlier turns built. |
| BackendApp.ObtenerDetalleLote | backend/app/main.py:176-209 | 404 iff the batch is missing; `puedeDescargar` holds iff the state is exactly "Completado". |
| BackendApp.DescargarPlantilla | backend/app/main.py:212-248 | The download succeeds iff the batch is "Completado", otherwise 404; the template has one sample row. |
| BackendApp.PuedeDescargar | backend/app/main.py:207 | Every batch this service lets download, the main service lets download too. |
| BackendApp.AdvertenciasSoloEnUnBackend | backend/app/main.py:207-215 | A "Completado con Advertencias" batch can be downloaded from the main service but not from this one, which never produces that state. |
| FlaskApp.TipoArchivo | app.py:99-105 | The type is UNKNOWN iff the extension is not in the whitelist; csv, xml, txt and xlsx map to CSV, XML, TXT and EXCEL. |
| FlaskApp.AllowedFile | app.py:34-35 | A name is allowed iff it has a dot and its lower-cased extension maps to a known file type. |
| FlaskApp.Procesada | app.py:131-178 | Processing keeps the batch's identity. ERROR_PROCESAMIENTO happens iff a CSV cannot be read. A CSV with fewer than 10 rows is COMPLETADO_EXITOSO, and the counts always add up (processed + product errors + third-party errors = total). Non-CSV files get 25/23. |
| FlaskApp.DescargarPlantillaSimona | app.py:216-231 | A missing batch gives 404 and a batch not ready gives 400; success holds iff it is ready. |
| FlaskApp.ListoParaDescarga | app.py:230 | A row that is RECIBIDO, PROCESANDO or ERROR_PROCESAMIENTO is never ready for download. |
| FlaskApp.ProcesadaDescargable | app.py:151-231 | Every batch that processing completes can be downloaded. |
| FlaskApp.TipoConocidoSiNombreIntacto | app.py:99-105 | A whitelisted name whose extension survives sanitising never gets type UNKNOWN. |
| FlaskApp.BaseLotes.constructor | app.py:42-54 | The database starts with the rows the generator loaded, numbered 1, 2, 3, … in order, and no upload writes yet. |
| FlaskApp.BaseLotes.ProcesarArchivo | app.py:131-178 | The batch is written PROCESANDO, then its processed state; no other row changes. |
| FlaskApp.BaseLotes.CargarFactura | app.py:79-129 | A missing file, an empty name or a disallowed extension gives 400 before any write. Accepted files are inserted as RECIBIDO with the next id and then processed; a sanitised name without a dot gives 500. |
| CargaArchivo.ExtensionDe | src/components/Facturas/CargaArchivo.jsx:38 | The extension is the lower-cased text after the last dot; a dot-less name is its own extension. |
| CargaArchivo.FormatoDetectado | src/components/Facturas/CargaArchivo.jsx:54-70 | xlsx/xls/csv give Excel/CSV, xml gives XML, txt gives TXT, and anything else gives Desconocido. |
| CargaArchivo.VistaPreviaDe | src/components/Facturas/CargaArchivo.jsx:54-77 | The preview keeps the file's name and size. Its format is known iff the extension is one the form accepts. |
| CargaArchivo.Formulario.constructor | src/components/Facturas/CargaArchivo.jsx:6-8 | No file and no preview. |
| CargaArchivo.Formulario.ProcesarArchivo | src/components/Facturas/CargaArchivo.jsx:36-52 | A valid extension selects the file and sets a known-format preview. Any other extension only sets "Formato no válido…" and leaves the form as it was. |
| CargaArchivo.Formulario.HandleSubmit | src/components/Facturas/CargaArchivo.jsx:80-97 | The selected batch and the error list are never touched. Without a file, only "Debe seleccionar un archivo" is set. With one, the batch context prepends an 'auto' batch (Cliente C, Procesando) with the success notice and loading off, and the form is cleared. |
| CargaArchivo.Formulario.LimpiarFormulario | src/components/Facturas/CargaArchivo.jsx:99-103 | File and preview are cleared. |
| CargaArchivo.FormularioMasPermisivoQueFlask | src/components/Facturas/CargaArchivo.jsx:38-47 | Every name the Flask service allows, the form accepts. Beyond those it accepts only `.xls` and dot-less names. |
| CargaArchivo.DiscrepanciasConFlask | src/components/Facturas/CargaArchivo.jsx:38-47 | "libro.xls" and "csv" are accepted by the form and refused by Flask. |
| MapeoManual.Invertir | src/components/Facturas/MapeoManual.jsx:31-34 | The initial mapping's keys are exactly the suggested fields, and each maps to a suggested column. |
| MapeoManual.InvertirUltimo | src/components/Facturas/MapeoManual.jsx:31-34 | Each field maps to the column of the last suggestion naming it. |
| MapeoManual.InvertirPaso | src/components/Facturas/MapeoManual.jsx:32-34 | One `forEach` step overwrites exactly one key. |
| MapeoManual.Faltantes | src/components/Facturas/MapeoManual.jsx:60-61 | A required field is missing iff it is unmapped or mapped to the empty selection. The missing fields keep the required order, and repeat nothing when the required list does not. |
| MapeoManual.MensajeFaltantes | src/components/Facturas/MapeoManual.jsx:63-67 | The notice is an error: "Faltan campos requeridos por mapear: " followed by the missing ids joined by ", ". |
| MapeoManual.MensajeNombraFaltantes | src/components/Facturas/MapeoManual.jsx:63-67 | The notice names every missing field. |
| MapeoManual.EnvioHabilitadoConFaltante | src/components/Facturas/MapeoManual.jsx:211 | Right after the suggestions load, the submit button is enabled while `factNro` is still missing. |
| MapeoManual.MapeoSugeridoFaltaFactNro | src/components/Facturas/MapeoManual.jsx:31-61 | The suggested mapping leaves exactly `factNro` missing. |
| MapeoManual.ClavesSugeridas | src/contexts/FacturasContext.jsx:250-258 | The suggestions map seven fields, each to a non-empty column. |
| MapeoManual.FaltaSoloFactNro | src/components/Facturas/MapeoManual.jsx:60-61 | Any mapping of exactly those seven fields to non-empty columns misses only `factNro`. |
| MapeoManual.FaltanteUnico | src/components/Facturas/MapeoManual.jsx:60-61 | When exactly one required field is unmapped or mapped to "", the missing list is that field alone. |
| MapeoManual.FaltantesNinguno | src/components/Facturas/MapeoManual.jsx:60-61 | When every field is mapped to a non-empty column, nothing is missing. |
| MapeoManual.Dialogo.constructor | src/components/Facturas/MapeoManual.jsx:12-16 | Empty mapping, suggestions not ready, loading. |
| MapeoManual.Dialogo.CargarSugerencias | src/components/Facturas/MapeoManual.jsx:20-43 | The fields and columns come from the suggestions, and the mapping is their inversion. |
| MapeoManual.Dialogo.CambiarMapeo | src/components/Facturas/MapeoManual.jsx:49-54 | Exactly one key is set; nothing else changes. |
| MapeoManual.Dialogo.GuardarYContinuar | src/components/Facturas/MapeoManual.jsx:57-78 | The selected batch and the error list are never touched, and the dialog closes iff no required field is missing. Otherwise the batches and the loading flag are untouched and the notice lists the missing fields. On close, the batch is marked Procesando, loading is off and the success notice is shown. |
| FacturasContext.ClienteDe | src/contexts/FacturasContext.jsx:85 | '1' gives Comiagro, '2' gives Cliente B, and anything else, 'auto' included, gives Cliente C. |
| FacturasContext.LoteSubido | src/contexts/FacturasContext.jsx:59-90 | The new batch keeps the name, date and format. Its state is Error iff it is Plantilla 51 with more than 8 errors, otherwise Procesando. Each format's random ranges hold, and errors are always below records. |
| FacturasContext.MarcarProcesando | src/contexts/FacturasContext.jsx:179-185 | Only the batch with that id becomes Procesando and manually processed; the length and all other batches are unchanged. |
| FacturasContext.MarcarProcesandoIdempotente | src/contexts/FacturasContext.jsx:179-185 | Continuing twice equals continuing once, and ids stay valid. |
| FacturasContext.SugerenciasMapeo | src/contexts/FacturasContext.jsx:224-264 | The Comiagro target gets exactly the twelve Comiagro destination fields, and any other target two. The eight detected columns and the seven suggestions are fixed. |
| FacturasContext.SugerenciasEnRango | src/contexts/FacturasContext.jsx:224-258 | Every suggestion pairs a detected column with a Comiagro field id. |
| FacturasContext.Registro.constructor | src/contexts/FacturasContext.jsx:16-20 | Empty registry, no selection, no errors, no notice. |
| FacturasContext.Registro.CargarLotes | src/contexts/FacturasContext.jsx:24-37 | The batches become the mock batches. |
| FacturasContext.Registro.SubirArchivo | src/contexts/FacturasContext.jsx:46-102 | The new batch (id = previous length + 1) is prepended and the success notice is set. |
| FacturasContext.Registro.VerDetalleLote | src/contexts/FacturasContext.jsx:105-129 | Fails iff the id is not a mock id. On success the selection is the detail, and `errores` is its error list when non-empty, else empty. |
| FacturasContext.Registro.SetMensaje | src/contexts/FacturasContext.jsx:20 | Only the notice changes, to the given one; batches, selection, errors and loading stay as they were. |
| FacturasContext.Registro.DescargarPlantillaComiagro | src/contexts/FacturasContext.jsx:132-155 | Only the "La plantilla se descargará en breve..." notice changes. |
| FacturasContext.Registro.ContinuarProcesamiento | src/contexts/FacturasContext.jsx:168-210 | The batches become `MarcarProcesando` of the old ones, and 'success' is returned with the notice. |
| FacturasContext.Registro.ObtenerSugerenciasMapeoCampos | src/contexts/FacturasContext.jsx:213-271 | Returns `SugerenciasMapeo`; nothing else changes. |
| FacturasContext.SubidoTrasMockNoTieneDetalle | src/contexts/FacturasContext.jsx:82-112 | A batch uploaded after the mock load gets id 4, which the mock detail lookup refuses. |
| TercerosContext.EstadoTrasAccion | src/contexts/TercerosContext.jsx:56-58 | corregir gives Corregido, crear gives En Creación Manual and ignorar gives Ignorado; any other action keeps the state. |
| TercerosContext.Actualizar | src/contexts/TercerosContext.jsx:52-61 | Only the exception with that id changes, and only its validation state; the length is kept. |
| TercerosContext.ActualizarIdempotente | src/contexts/TercerosContext.jsx:52-61 | Applying the same action twice equals applying it once. |
| TercerosContext.Registro.constructor | src/contexts/TercerosContext.jsx:13-15 | No exceptions, no notice. |
| TercerosContext.Registro.CargarExcepciones | src/contexts/TercerosContext.jsx:19-33 | The exceptions become the mock exceptions. |
| TercerosContext.Registro.ActualizarTercero | src/contexts/TercerosContext.jsx:42-78 | The exceptions become `Actualizar` of the old ones, and 'success' is returned with a notice naming the action; the extra data is not stored. |
| TablaExcepciones.ColorEstado | src/components/Terceros/TablaExcepciones.jsx:29-38 | Unknown states are gray, and both active states are coloured. |
| TablaExcepciones.EsTerceroActivo | src/components/Terceros/TablaExcepciones.jsx:47-49 | No state that an action writes (Corregido, En Creación Manual, Ignorado) is active, nor is the back end's No_Encontrado. |
| TablaExcepciones.CeldaAccion | src/components/Terceros/TablaExcepciones.jsx:107-116 | A row shows Gestionar iff its state is No Encontrado or Inconsistente, else Gestionado. |
| TablaExcepciones.AccionCierraExcepcion | src/components/Terceros/TablaExcepciones.jsx:47-49 | After a recognised action the exception shows Gestionado. |
| TablaExcepciones.EstadoDelBackendNoActivo | src/components/Terceros/TablaExcepciones.jsx:47-49 | The backend's spelling No_Encontrado is neither actionable nor coloured. |
| TablaExcepciones.Vista.constructor | src/components/Terceros/TablaExcepciones.jsx:14-15 | No selection, no dialog. |
| TablaExcepciones.Vista.Gestionar | src/components/Terceros/TablaExcepciones.jsx:41-44 | Selects the exception and opens the actions dialog. |
| TablaLotes.IconoFormato | src/components/Facturas/TablaLotes.jsx:25-33 | The four known formats get their own icon, and anything else gets 📁. |
| TablaLotes.NombreFormato | src/components/Facturas/TablaLotes.jsx:36-44 | Unknown formats echo the raw format. |
| TablaLotes.ColorEstado | src/components/Facturas/TablaLotes.jsx:47-56 | Gray iff the state is none of the five known states. |
| TablaLotes.BotonesDe | src/components/Facturas/TablaLotes.jsx:206-260 | Detalles always shows. Errores shows iff errors > 0, Mapeo iff personalizado and not Completado, and Descargar iff Completado or Completado con Advertencias. |
| TablaLotes.DescargaComoBackendMain | src/components/Facturas/TablaLotes.jsx:59-61 | The table's download rule equals the main service's, and the older service's stricter rule implies it. |
| TablaLotes.PuedeDescargar | src/components/Facturas/TablaLotes.jsx:59-61 | A batch that is Procesando or Error shows no download button. |
| TablaLotes.MapeoTrasContinuar | src/components/Facturas/TablaLotes.jsx:232 | After continuing a personalizado batch its Mapeo button stays visible, because the state becomes Procesando. |
| TablaLotes.Vista.constructor | src/components/Facturas/TablaLotes.jsx:9-11 | No dialog is open. |
| TablaLotes.Vista.VerDetalles | src/components/Facturas/TablaLotes.jsx:64-73 | For batches 1-3 the context selects that batch's detail, its errors become the error list, loading is off and only the details dialog is open. For any other id the selection, the error list and the dialog flags are unchanged, loading is off, and the notice is "Error al obtener detalles: Lote no encontrado". The batch list never changes. |
| TablaLotes.Vista.VerErrores | src/components/Facturas/TablaLotes.jsx:76-85 | As `VerDetalles`, with only the errors dialog open after a successful fetch. |
| TablaLotes.Vista.VerMapeo | src/components/Facturas/TablaLotes.jsx:88-97 | As `VerDetalles`, with only the mapping dialog open after a successful fetch. |
| TablaLotes.Vista.Cerrar | src/components/Facturas/TablaLotes.jsx:270-288 | Closing clears exactly that dialog's flag. |
| ProductosContext.ProductosDemo | src/contexts/ProductosContext.jsx:16-55 | Three products with distinct ids 1-3: two Pendiente, and one Baja_Confianza at 45% carrying the only suggestion. |
| ProductosContext.SugerenciasDemo | src/contexts/ProductosContext.jsx:67-108 | Five suggestions in strictly descending confidence, all between 60 and 95. |
| ProductosContext.CodigosDistintos | src/contexts/ProductosContext.jsx:67-108 | The five suggestion codes are distinct. |
| ProductosContext.Homologar | src/contexts/ProductosContext.jsx:129-138 | Only the product with that id becomes Homologado with the chosen code; the length and other products are unchanged. |
| ProductosContext.MarcarCreacion | src/contexts/ProductosContext.jsx:161-170 | Only the product with that id becomes Para_Creacion with the notes; its code is untouched. |
| ProductosContext.ConEstado | src/contexts/ProductosContext.jsx:189-191 | The products in that state, in list order (`Secuencias.Subsecuencia`), and no other product. `ConEstadoCuenta` gives the multiplicities. |
| ProductosContext.ConEstadoCuenta | src/contexts/ProductosContext.jsx:189-191 | Each product in the state is kept as often as the list holds it, and every other product not at all. |
| ProductosContext.SinControlDeEstado | src/contexts/ProductosContext.jsx:129-170 | Neither update checks the prior state: a homologated product can be re-marked for creation, and the reverse. |
| ProductosContext.ActualizacionesConservanIds | src/contexts/ProductosContext.jsx:129-170 | Both updates keep ids unique. |
| ProductosContext.MarcarSumaUno | src/contexts/ProductosContext.jsx:161-191 | Marking a product not yet in creation raises the creation count by exactly one. |
| ProductosContext.SinEseId | src/contexts/ProductosContext.jsx:161-170 | Marking an absent id changes nothing. |
| ProductosContext.MensajeDescarga | src/contexts/ProductosContext.jsx:193-210 | Zero products gives the warning. Otherwise the notice is a success reading "Excel generado con ", the decimal count, then " productos para creación". |
| ProductosContext.Registro.constructor | src/contexts/ProductosContext.jsx:8-56 | The products are the demo products, with no selection and no suggestions. |
| ProductosContext.Registro.SeleccionarProducto | src/contexts/ProductosContext.jsx:9 | Only the selection changes. |
| ProductosContext.Registro.ObtenerSugerenciasIA | src/contexts/ProductosContext.jsx:59-118 | Stores and returns the demo suggestions whatever the description. |
| ProductosContext.Registro.ConfirmarMatch | src/contexts/ProductosContext.jsx:121-150 | The products become `Homologar` of the old ones, with the success notice. |
| ProductosContext.Registro.MarcarParaCreacion | src/contexts/ProductosContext.jsx:153-182 | The products become `MarcarCreacion` of the old ones, with the info notice. |
| ProductosContext.Registro.DescargarProductosParaCreacion | src/contexts/ProductosContext.jsx:185-227 | Returns the number of Para_Creacion products and sets `MensajeDescarga` of it. |
| TablaProductos.ConfianzaTexto | src/components/Productos/TablaProductos.jsx:50 | A missing confidence prints "null"; otherwise its decimal digits. |
| TablaProductos.EstadoInfoDe | src/components/Productos/TablaProductos.jsx:30-79 | The four known states get an icon. Any other state is echoed in gray with no icon, and Baja_Confianza embeds the confidence. |
| TablaProductos.AccionesDe | src/components/Productos/TablaProductos.jsx:188-240 | "Buscar con IA" shows iff Pendiente. Revisar and Crear Nuevo show iff Pendiente or Baja_Confianza. The badges show for Homologado and Para_Creacion. |
| TablaProductos.BadgeSinBotones | src/components/Productos/TablaProductos.jsx:188-240 | A row showing a badge shows no action button. |
| TablaProductos.CeldaSugerenciaDe | src/components/Productos/TablaProductos.jsx:168-181 | The suggestion shows if present, else a non-empty assigned code, else "Sin procesar". |
| TablaProductos.ConfirmarNoMuestraCodigo | src/components/Productos/TablaProductos.jsx:168-181 | After confirming, a product that still has a suggestion shows it rather than the confirmed code. |
| TablaProductos.Producto3MuestraSugerenciaVieja | src/components/Productos/TablaProductos.jsx:168-181 | Demo product 3, confirmed as BMC-AR-001, still shows BMC-AZ-001. |
| TablaProductos.SinBotonesTrasActualizar | src/components/Productos/TablaProductos.jsx:188-240 | After either update, the product shows no action button. |
| TablaProductos.Vista.constructor | src/components/Productos/TablaProductos.jsx:14-16 | No dialog, no current product. |
| TablaProductos.Vista.BuscarConIA | src/components/Productos/TablaProductos.jsx:82-87 | Selects the product, loads the demo suggestions and opens the suggestions dialog. |
| TablaProductos.Vista.MarcarParaCreacion | src/components/Productos/TablaProductos.jsx:90-94 | Selects the product and opens the creation dialog. |
| TablaProductos.Vista.CerrarSugerencias | src/components/Productos/TablaProductos.jsx:255-258 | Closes the dialog and clears the current product, so neither dialog renders. |
| TablaProductos.Vista.CerrarCreacion | src/components/Productos/TablaProductos.jsx:265-268 | Closes the dialog and clears the current product, so neither dialog renders. |
| ModalSugerencias.ColorConfianza | src/components/Productos/ModalSugerenciasIA.jsx:22-27 | Green iff ≥ 90, yellow iff 75-89, orange iff 60-74, red iff below 60. |
| ModalSugerencias.ColorMonotono | src/components/Productos/ModalSugerenciasIA.jsx:22-27 | A higher confidence never gets a worse band. |
| ModalSugerencias.IconoConfianza | src/components/Productos/ModalSugerenciasIA.jsx:29-49 | Check iff ≥ 90, info iff 75-89, warning below 75. |
| ModalSugerencias.IconoYColor | src/components/Productos/ModalSugerenciasIA.jsx:22-49 | Icon and colour agree on the upper bands; the warning icon covers orange and red. |
| ModalSugerencias.BandasDemo | src/components/Productos/ModalSugerenciasIA.jsx:22-27 | The demo suggestions are green, yellow, yellow, orange, orange. |
| ModalSugerencias.Dialogo.constructor | src/components/Productos/ModalSugerenciasIA.jsx:6-7 | No selection, so the confirm button is disabled. |
| ModalSugerencias.Dialogo.Seleccionar | src/components/Productos/ModalSugerenciasIA.jsx:114 | The clicked suggestion is selected and highlighted. |
| ModalSugerencias.Dialogo.ConfirmarHabilitado | src/components/Productos/ModalSugerenciasIA.jsx:213 | When the confirm button is enabled, a suggestion is selected and its row is highlighted. |
| ModalSugerencias.Dialogo.AlternarDetalles | src/components/Productos/ModalSugerenciasIA.jsx:144-150 | Clicking the unfolded row folds it, and clicking another row unfolds that one. |
| ModalSugerencias.Dialogo.ConfirmarMatch | src/components/Productos/ModalSugerenciasIA.jsx:9-20 | Without a selection nothing changes, the loading flag included. With one, the product is homologated with the selected code, the notice is "Producto homologado exitosamente", loading is off and the dialog closes. |
| ModalSugerencias.UnaSolaResaltada | src/components/Productos/ModalSugerenciasIA.jsx:109 | Over the demo suggestions at most one row is highlighted, since selection is by code. |
| ModalCreacion.BuscarRazon | src/components/Productos/ModalCreacionProducto.jsx:38 | `find` returns the label of the first reason with that value, and nothing iff none has it. |
| ModalCreacion.EtiquetaTexto | src/components/Productos/ModalCreacionProducto.jsx:38 | A known reason renders the label of the first reason with that value; an unknown one renders "undefined". |
| ModalCreacion.RazonesConEtiqueta | src/components/Productos/ModalCreacionProducto.jsx:11-38 | Every offered reason renders exactly its own label, never "undefined". |
| ModalCreacion.Cabecera | src/components/Productos/ModalCreacionProducto.jsx:37-41 | The notes open with the reason label and end at the last label. |
| ModalCreacion.NotasCompletas | src/components/Productos/ModalCreacionProducto.jsx:37-42 | The trimmed notes are reason, category, specifications and notes in that order. Only the user's trailing whitespace is cut. |
| ModalCreacion.RecortePlantilla | src/components/Productos/ModalCreacionProducto.jsx:37-42 | Trimming removes the leading newline and the trailing blanks and keeps the heading whole. |
| ModalCreacion.Formulario.constructor | src/components/Productos/ModalCreacionProducto.jsx:6-9 | The reason is no_encontrado and the category is empty, so confirm is disabled. |
| ModalCreacion.Formulario.ConfirmarHabilitado | src/components/Productos/ModalCreacionProducto.jsx:211 | The confirm button is enabled only with a category and nothing loading. |
| ModalCreacion.Formulario.CambiarRazon | src/components/Productos/ModalCreacionProducto.jsx:115 | Only the reason changes. |
| ModalCreacion.Formulario.CambiarCategoria | src/components/Productos/ModalCreacionProducto.jsx:133 | Only the category changes. |
| ModalCreacion.Formulario.CambiarEspecificaciones | src/components/Productos/ModalCreacionProducto.jsx:153 | Only the specifications change. |
| ModalCreacion.Formulario.CambiarNotas | src/components/Productos/ModalCreacionProducto.jsx:169 | Only the notes change. |
| ModalCreacion.Formulario.Confirmar | src/components/Productos/ModalCreacionProducto.jsx:36-50 | The product is marked for creation with the composed notes, even with an empty category. The notice is "Producto marcado para creación manual" and loading is off. |
| EstadisticasProductos.Redondeo | src/components/Productos/EstadisticasProductos.jsx:15-20 | Half-up rounding of 100·a/b: within half a unit, 0 for 0, 100 for a = b, and at most 100 for a ≤ b. |
| EstadisticasProductos.RedondeoPropiedades | src/components/Productos/EstadisticasProductos.jsx:15-20 | The integer formula meets the rounding bounds. |
| EstadisticasProductos.Porcentaje | src/components/Productos/EstadisticasProductos.jsx:15-20 | 0 for an empty total. Otherwise `100·a/total` rounded half up: `2·r·total <= 200·a + total < 2·r·total + 2·total`. At most 100 for a part of the total. |
| EstadisticasProductos.CuentasSuman | src/components/Productos/EstadisticasProductos.jsx:8-12 | The four per-state counts sum to at most the total, with equality when only those states occur. |
| EstadisticasProductos.EstadisticasDe | src/components/Productos/EstadisticasProductos.jsx:8-20 | Each count is the length of its state's filter. Completed = homologated + for creation ≤ total. Each percentage is its count's share of the total rounded half up, 0 for an empty list and ≤ 100; progress is 100 when all are completed. |
| EstadisticasProductos.HomologarNoRetrocede | src/components/Productos/EstadisticasProductos.jsx:19 | Confirming a match never lowers the completed count. |
| EstadisticasProductos.ConEstadoMonotono | src/components/Productos/EstadisticasProductos.jsx:9-11 | Moving products towards a completed state never lowers the completed count. |
| EstadisticasProductos.PendientesTarjeta | src/components/Productos/EstadisticasProductos.jsx:49 | The "Pendientes" figure is the Pendiente count plus the Baja_Confianza count. With the completed ones it never exceeds the total. |
| EstadisticasProductos.PorcentajeAccionEscrito | src/components/Productos/EstadisticasProductos.jsx:50 | As written, the action percentage is undefined (NaN) iff the list is empty. |
| EstadisticasProductos.PorcentajeAccionEscritoFalla | src/components/Productos/EstadisticasProductos.jsx:50 | NaN for the empty list, and 101% for the statistics of a list of one Pendiente and seven Baja_Confianza products. |
| EstadisticasProductos.PorcentajeAccion | src/components/Productos/EstadisticasProductos.jsx:50 | Corrected: a single half-up rounding of the "Pendientes" figure's share of the total. At most 100, 0 for an empty list, 100 when every product needs action. |
| EstadisticasProductos.Sumar | src/components/Productos/EstadisticasProductos.jsx:145-148 | Counting one product raises the client's total by one and keeps total = homologated + creation + pending. |
| EstadisticasProductos.SumarSube | src/components/Productos/EstadisticasProductos.jsx:145-148 | Besides the total, exactly one counter rises: homologados for Homologado, paraCreacion for Para_Creacion, pendientes for any other state. |
| EstadisticasProductos.Agregar | src/components/Productos/EstadisticasProductos.jsx:135-149 | One reduce step adds one to the grand total and touches only that client. |
| EstadisticasProductos.AgregarBien | src/components/Productos/EstadisticasProductos.jsx:135-149 | One reduce step keeps every client's tally consistent and the clients distinct. |
| EstadisticasProductos.Acumular | src/components/Productos/EstadisticasProductos.jsx:135-150 | The fold adds the number of products to the grand total and keeps the tallies consistent. |
| EstadisticasProductos.DesglosePorCliente | src/components/Productos/EstadisticasProductos.jsx:134-150 | The per-client totals sum to the number of products, each tally is consistent, and no client appears twice. |
| EstadisticasProductos.DesgloseCuentaPorCliente | src/components/Productos/EstadisticasProductos.jsx:134-150 | Each entry's tally is the tally of exactly that client's products. Every entry's client has at least one product, and every client with a product has an entry. |
| EstadisticasProductos.TallyDe | src/components/Productos/EstadisticasProductos.jsx:145-148 | The reference tally of a list of products: its total is the length and it adds up. |
| EstadisticasProductos.TallyDeCuenta | src/components/Productos/EstadisticasProductos.jsx:145-148 | The reference tally counts by state: homologados and paraCreacion are the sizes of those state filters, and the remaining products are pending. |
| EstadisticasProductos.AcumularRefleja | src/components/Productos/EstadisticasProductos.jsx:135-150 | Folding products into the breakdown of a list yields the breakdown of the extended list. |
| EstadisticasProductos.AgregarRefleja | src/components/Productos/EstadisticasProductos.jsx:135-149 | One reduce step turns the breakdown of a list into the breakdown of that list plus one product. |
| EstadisticasProductos.PorcentajeCliente | src/components/Productos/EstadisticasProductos.jsx:152 | The client's homologated plus for-creation share of its total, rounded half up. At most 100, and 100 when the client has nothing pending. |
| Api.HandleResponse | src/services/api.js:6-12 | Success iff the response is ok and the body parses, returning the body. A failure carries the server's message, else "Error en la petición". |
| Api.LotesMock | src/services/api.js:101-134 | Three mock batches with ids 1-3, each with errors ≤ records. |
| Api.BuscarLote | src/services/api.js:202-203 | `find` returns a batch with that id, and nothing iff none has it. |
| Api.ExcepcionesMock | src/services/api.js:136-199 | Five exceptions with ids 1-5, all No Encontrado or Inconsistente. |
| Api.LogsDe | src/services/api.js:210-239 | The log holds 6 entries for a comiagro batch and 7 for any other, and always starts with the two base entries. |
| Api.ErroresDe | src/services/api.js:244-265 | The simulated errors start with the row-23 NIT error. There are 2 of them for comiagro, 5 for plantilla51 and 3 for any other format. |
| Api.MapeoDe | src/services/api.js:273-286 | The mapping names the batch format and is marked as mapped. It lists 12 original fields for comiagro, 11 for plantilla51 and 5 otherwise. Some fields stay unmapped exactly for "personalizado". |
| Api.DetalleDe | src/services/api.js:209-287 | The detail keeps the batch and has the log of its format. It has the errors of its format iff the batch reports errors or is in "Error", and otherwise none. It has the mapping of its format iff the format is non-empty. |
| Api.GetDetalleLoteMock | src/services/api.js:201-207 | Fails with "Lote no encontrado" iff the id is not 1, 2 or 3. Otherwise the detail belongs to the mock batch with that id and has the conforming log, errors and mapping. |
| DetallesLote.ColorEstado | src/components/Facturas/DetallesLote.jsx:28-37 | Gray iff the state is none of the four the dialog knows. |
| DetallesLote.ColorComoTabla | src/components/Facturas/DetallesLote.jsx:28-37 | The dialog colours a state like the table iff it is not Validando. |
| DetallesLote.TipoArchivoLegible | src/components/Facturas/DetallesLote.jsx:40-48 | "Formato Desconocido" iff the format is not one of the four known. |
| DetallesLote.IconoYNombre | src/components/Facturas/DetallesLote.jsx:17-48 | The icon falls back to 📁 exactly when the name falls back to "Formato Desconocido". |
| DetallesLote.FormatosDeLosLotesSimulados | src/components/Facturas/DetallesLote.jsx:40-48 | Mock batches 1 and 3 read "Formato Desconocido" and batch 2 reads "Plantilla 51 (SIMONA)"; none gets the format-specific block. |
| DetallesLote.TipoDe | src/components/Facturas/DetallesLote.jsx:53 | An error's group is its field, or OTROS when the field is empty, so it is never empty. |
| DetallesLote.DelTipo | src/components/Facturas/DetallesLote.jsx:51-56 | The errors of one kind in list order (`Secuencias.Subsecuencia`), and only those. `DelTipoCuenta` gives the multiplicities. |
| DetallesLote.DelTipoCuenta | src/components/Facturas/DetallesLote.jsx:51-56 | Each error of the kind is kept as often as the list holds it, and every other error not at all. |
| DetallesLote.Buscar | src/components/Facturas/DetallesLote.jsx:54 | A group is absent iff no entry has that key. |
| DetallesLote.Insertar | src/components/Facturas/DetallesLote.jsx:53-55 | One reduce step appends the error to its group (creating it last if new) and leaves the other groups and their order alone. |
| DetallesLote.InsertarDistintas | src/components/Facturas/DetallesLote.jsx:53-55 | One step keeps the group keys distinct. |
| DetallesLote.Agrupar | src/components/Facturas/DetallesLote.jsx:51-56 | Each group holds exactly the errors of its kind in their order, keys are distinct, group sizes sum to the error count, and there are no groups iff there are no errors. |
| DetallesLote.GruposDe | src/components/Facturas/DetallesLote.jsx:51-56 | A precomputed grouping wins. Otherwise the error list is grouped by `Agrupar` (group sizes summing to the number of errors, distinct keys). With neither there are no groups. |
| DetallesLote.GruposDelDetalle | src/components/Facturas/DetallesLote.jsx:51-56 | The mock detail's errors are grouped, and the section is empty iff there are no errors. |
| DetallesLote.CadaErrorEnSuGrupo | src/components/Facturas/DetallesLote.jsx:51-56 | Every error is in its own group and in no other. |
| DetallesLote.TituloGrupo | src/components/Facturas/DetallesLote.jsx:184-187 | Any kind other than the three named ones is titled "📋 " + kind. |
| DetallesLote.TitulosDistintos | src/components/Facturas/DetallesLote.jsx:184-187 | Distinct kinds get distinct titles. |
| DetallesLote.Visibles | src/components/Facturas/DetallesLote.jsx:195 | At most the first five errors of a group are shown. |
| DetallesLote.Restantes | src/components/Facturas/DetallesLote.jsx:205-207 | "y N más" appears iff the group has more than five, and shown + N = group size. |
| DetallesLote.Redondear | src/components/Facturas/DetallesLote.jsx:161 | `Math.round` of 100·n/d, within half a unit, in [0,100] for 0 ≤ n ≤ d. |
| DetallesLote.ExitoDe | src/components/Facturas/DetallesLote.jsx:161 | Corrected rate: 100 for no records. For a positive record count it is the share of error-free records rounded half up (`2·r·n <= 200·(n−e) + n < 2·r·n + 2·n`); a negative count divides by it likewise. 100 with no errors, within [0,100] when errors ≤ records, 0 when all records fail. |
| DetallesLote.ListaANumero | src/components/Facturas/DetallesLote.jsx:161 | Subtracting the error list gives a number only when it is empty (0); otherwise NaN. |
| DetallesLote.ExitoEscrito | src/components/Facturas/DetallesLote.jsx:161 | As written, the rate is NaN iff there are records and errors; otherwise 100. |
| DetallesLote.ContadorEscrito | src/components/Facturas/DetallesLote.jsx:148 | As written, the error counter renders nothing for an empty list and an invalid child for a non-empty one. |
| DetallesLote.ResumenEscritoFalla | src/components/Facturas/DetallesLote.jsx:148-161 | For mock batch 2 (85 records, with errors) the counter is invalid and the rate NaN. |
| DetallesLote.ResumenDe | src/components/Facturas/DetallesLote.jsx:136-161 | Corrected summary: the records and the counter (the number of errors) are the detail's. The rate is 100 for no records, else the half-up rounded share of error-free records, in [0,100] when errors ≤ records. It agrees with the written rate whenever that is a number. |
| DetallesLote.ResumenLote2 | src/components/Facturas/DetallesLote.jsx:136-161 | Mock batch 2 with its five errors summarises as 85 records, 5 errors, 94%. |
| DetallesLote.PieDe | src/components/Facturas/DetallesLote.jsx:316-328 | "Listo para descarga" and the button both show iff `puedeDescargar`. |
| DetallesLote.PieDeDetalle | src/components/Facturas/DetallesLote.jsx:316-328 | The mock detail has no `puedeDescargar`, so the dialog never offers the download. |
| DetallesLote.DescargaSoloEnTabla | src/components/Facturas/DetallesLote.jsx:316-328 | A Completado batch has a download button in the table but none in its dialog. |
| Dashboard.LotesEn | src/pages/Dashboard.jsx:15-17 | The batches in that state, in list order (`Secuencias.Subsecuencia`), and no other batch. `LotesEnCuenta` gives the multiplicities. |
| Dashboard.LotesEnCuenta | src/pages/Dashboard.jsx:15-17 | Each batch in the state is kept as often as the list holds it, and every other batch not at all. |
| Dashboard.CuentasDeLotes | src/pages/Dashboard.jsx:14-17 | The three counts never exceed the total. They cover it exactly when every batch is Completado, Error or Procesando. |
| Dashboard.ExcepcionesEn | src/pages/Dashboard.jsx:19-21 | The exceptions in an open state, in list order, and no other exception. `ExcepcionesEnCuenta` gives the multiplicities. |
| Dashboard.ExcepcionesEnCuenta | src/pages/Dashboard.jsx:19-21 | Each exception in an open state is kept as often as the list holds it, and every other exception not at all. |
| Dashboard.TarjetasCon | src/pages/Dashboard.jsx:14-21 | The total is the number of batches. Completed, error and in-progress are the lengths of the three state filters, and pending is the length of the open-state filter. The batch counts stay within the total, and pending within the exceptions. |
| Dashboard.TarjetasEscrito | src/pages/Dashboard.jsx:14-21 | As written, the pending card counts the No_Encontrado and Inconsistente spellings. The batch cards are the state filters' lengths. |
| Dashboard.TarjetasDe | src/pages/Dashboard.jsx:14-21 | Corrected: the pending card counts the client's No Encontrado and Inconsistente. The batch cards are the state filters' lengths. |
| Dashboard.PendienteSiGestionable | src/pages/Dashboard.jsx:19-21 | An exception is pending for the corrected count iff the exception table offers Gestionar. |
| Dashboard.PendientesEscritoFalla | src/pages/Dashboard.jsx:19-21 | For an exception in the client state "No Encontrado", the written card counts 0 pending while the corrected count is 1. |
| Dashboard.TarjetasSimuladas | src/pages/Dashboard.jsx:14-17 | The mock data gives 3 batches (one completed, one with errors, one in progress) and 5 exceptions. |
| Dashboard.SinEseId | src/contexts/TercerosContext.jsx:52-61 | An action on an absent id changes nothing. |
| Dashboard.AccionBajaPendientes | src/pages/Dashboard.jsx:19-21 | Handling one open exception lowers the corrected pending count by exactly one. |

## Left out

- Timers, polling intervals, the simulated delays and the 5-second notice clearing: the
  model has no clock.
- The random parts are parameters of the model:
  - `Math.random` counts in `subirArchivo` (the `Sorteos` parameter);
  - the random state flip that `continuarProcesamiento` schedules after 5 seconds;
  - the random "usado en N lotes" text of the suggestion dialog.
- Dates, timestamps and their `toLocaleString` formatting are carried as plain strings or
  left out.
- The preview size's "KB" rendering is left out; the size is kept in bytes.
- File contents are abstract inputs: `XmlDoc`, `Frame` and `TextFile` stand for the
  results of ElementTree, pandas and reading the file.
- The Firestore and SQLite stores are not modelled as stores:
  - the FastAPI services' writes are the returned records;
  - Flask's table is a sequence field of a class.
- Concurrent requests are not modelled. There is no background processing to model:
  Flask's upload calls `process_file_async` synchronously, inside the request.
- `secure_filename` is a parameter of the Flask upload.
- The Excel workbook contents are left out: cell values, styling and the Blob/DOM download
  code. The model keeps only the headers count and the sample-row count.
- The `fetch` wrappers of `src/services/api.js` other than `handleResponse`, and all HTTP
  routing, are left out. Only the mock path the client actually calls is modelled.
- Floating-point percentages are modelled as integer half-up rounding, which is what
  `Math.round` gives for non-negative ratios.
- `parseInt` on non-numeric ids is left out. Ids are integers in the model.
- `Object.entries` puts integer-like keys first. The model keeps insertion order, which
  agrees for the non-numeric keys the client uses.
- The dialog displays `error.mensaje`, while the mock errors carry `error`, so the text
  cell renders empty. The model does not display error texts.
- The row cell renders `fila` only when it is truthy. This is left out.
- Logs are rendered with level "INFO" when they carry none, which is always the case for
  the mock logs. Log rendering is left out.
- The `erroresPorTipo` precomputed grouping never occurs on the mock path. It appears only
  as a parameter of `DetallesLote.GruposDe`.
- A numeric `lote.errores` reaching `?.reduce` in the detail dialog would throw. Only the
  list the mock supplies is modelled.
- The product table header's pluralisation and the product filters' rendering are left
  out.
- `src/components/Terceros/AccionesTercero.jsx` is not part of this model. The exception
  actions are modelled from the context's `actualizarTercero`.
- `src/components/Facturas/ErroresValidacion.jsx` is not part of this model.
- The React render tree and all styling are left out. Only the colour class strings the
  lookups return are kept.
- Failures of `confirmarMatch`, `marcarParaCreacion` and `continuarProcesamiento` (their
  `catch` branches) cannot happen in the simulated code and are not modelled.
- Text.ToLower and Text.ToUpper change only the ASCII letters. Python's `lower()`/`upper()`
  and JavaScript's `toLowerCase()`/`toUpperCase()` also map non-ASCII letters. The
  extension checks of `BackendMain.Extension`, `FlaskApp.AllowedFile` and
  `CargaArchivo.ExtensionDe` are exact for ASCII names only.
- Text.IsSpace covers the six ASCII whitespace characters: space, tab, line feed,
  carriage return, vertical tab and form feed. Python's `strip()` also removes `\x1c`-`\x1f`,
  `\x85` and the Unicode spaces. JavaScript's `trim()` also removes U+00A0, U+FEFF, U+2028,
  U+2029 and the other Unicode spaces.
- BackendMain.NoVacias treats a line made only of those other whitespace characters as
  non-blank, where `strip()` would drop it.
- CargaArchivo.ExtensionDe lower-cases only ASCII letters, so a non-ASCII extension is
  compared unchanged.
- ModalCreacion.NotasCompletas trims only the six ASCII whitespace characters from the
  composed notes, where `trim()` also removes the other Unicode spaces.
- BackendMain.CargaEsperada and BackendMain.CargarArchivo leave out the outer
  `except Exception` of backend/main.py:291-295. The model's store writes cannot fail,
  so that branch is never reached. In the source, a write or log that raises marks the
  batch "Error" with 1 error, and the reply carries "Error" and 0 records.
- BackendCommon.ObtenerLotes rests on how Firestore treats the query limit
  `limit * page`. A negative limit is modelled as a rejected query, which ends in the
  500. A zero limit (page 0) is modelled as a query that returns no documents. The
  client library passes both on unchecked (backend/firebase_service.py:59).
- BackendCommon.Aplicar models each payload field as an `Option`. A key sent with the
  value null is therefore the same as a key left out. The source writes null in that case
  (`'notas' in payload`, backend/main.py:522-526), where the model keeps the old value.

## Findings

| source | as written | input that shows it | evidently intended | confidence | as-written member | corrected member |
|---|---|---|---|---|---|---|
| backend/main.py:323-348 | The listing reads only `limit*page` documents before filtering and counts pages from that slice. | 25 stored batches, page 1, limit 20: reports 1 page and 20 records. | Count every matching stored batch, so that every batch is reachable on some page. | not executed | BackendCommon.PaginacionPierdeSegundaPagina | BackendCommon.CorregidoCubreTodo |
| src/pages/Dashboard.jsx:19-21 | The pending-exceptions card filters on the backend spelling `No_Encontrado`. | Any exception in state "No Encontrado", as three of the five mock exceptions are: the card leaves it out. | Count the client's "No Encontrado" and "Inconsistente", i.e. the rows offering Gestionar (5). | not executed | Dashboard.PendientesEscritoFalla | Dashboard.AccionBajaPendientes |
| src/components/Productos/EstadisticasProductos.jsx:50 | The "requiere acción" percentage divides by the total unguarded and adds two separately rounded percentages. | An empty list gives NaN; 1 Pendiente plus 7 Baja_Confianza out of 8 gives 101%. | Guard the empty total and round the combined share once, staying within 0-100. | not executed | EstadisticasProductos.PorcentajeAccionEscritoFalla | EstadisticasProductos.PorcentajeAccion |
| src/components/Facturas/DetallesLote.jsx:148 | The error counter renders `lote.errores`, which the detail replaces by the error list. | Mock batch 2 (five errors): the counter renders a list of objects, which React rejects. | Show the number of errors. | not executed | DetallesLote.ResumenEscritoFalla | DetallesLote.ResumenLote2 |
| src/components/Facturas/DetallesLote.jsx:161 | The success rate subtracts the error list from the record count. | Mock batch 2: 85 minus a five-element list is NaN. | `round(100·(records − errors)/records)`, i.e. 94% for batch 2. | not executed | DetallesLote.ExitoEscrito | DetallesLote.ResumenDe |
