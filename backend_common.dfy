/** What the two FastAPI back ends (backend/main.py and backend/app/main.py) share:
    the Firestore documents they read and write, what the parsing libraries hand
    them, and the endpoints both files implement in the same words — batch
    pagination, exception statistics and the exception-action update. */
module BackendCommon {
  import opened Wrappers
  import PyOps
  import Secuencias

  // ---------------------------------------------------------------- library outputs

  /** What ElementTree makes of an uploaded file: the tags of every element in
      document order (the root first, as `root.iter()` yields them) and the number of
      direct children of the root; or the parse error; or any other failure. */
  datatype XmlDoc =
    | XmlTree(etiquetas: seq<string>, hijosRaiz: nat)
    | XmlParseError(msg: string)
    | XmlReadError(msg: string)

  /** What pandas makes of an uploaded file: a frame (row count and column names) or
      the exception it raises. */
  datatype Frame =
    | Frame(filas: nat, columnas: seq<string>)
    | FrameError(msg: string)
  {
    /** pandas `DataFrame.empty`: no rows or no columns. */
    predicate Empty()
      requires Frame?
    {
      filas == 0 || |columnas| == 0
    }
  }

  /** The lines `readlines()` returns, or the exception opening the file raises. */
  datatype TextFile =
    | TextLines(lineas: seq<string>)
    | TextReadError(msg: string)

  /** An uploaded file as each reader would see it. */
  datatype Contenido = Contenido(xml: XmlDoc, csv: Frame, excel: Frame, texto: TextFile)

  // ---------------------------------------------------------------- Firestore documents

  /** A document of the `lotes` collection. */
  datatype LoteDoc = LoteDoc(
    id: string,
    nombreArchivo: string,
    cliente: string,
    formato: string,
    estado: string,
    registrosTotales: int,
    errores: int,
    tipoArchivoDetectado: Option<string>)

  /** A document of the `errores` collection; `campo` is None when the key is absent. */
  datatype ErrorDoc = ErrorDoc(loteId: string, fila: int, campo: Option<string>, mensaje: string, severidad: string)

  /** A document of the `excepciones_dian` collection (without its document id). */
  datatype Excepcion = Excepcion(
    loteId: string,
    filaOrigen: int,
    documento: string,
    nombreReportado: string,
    estadoValidacion: string,
    estadoGestion: string,
    notas: Option<string>,
    datosCorreccion: Option<string>)

  datatype ExcepcionGuardada = ExcepcionGuardada(id: string, datos: Excepcion)

  // ---------------------------------------------------------------- upload outcome

  datatype RespuestaCarga = RespuestaCarga(loteId: string, nombreArchivo: string, estado: string, registrosEstimados: int)

  /** Everything one upload writes: the final batch document, the error documents, the
      DIAN exceptions, the log messages, and the reply. */
  datatype Carga = Carga(
    lote: LoteDoc,
    errores: seq<ErrorDoc>,
    excepciones: seq<Excepcion>,
    logs: seq<string>,
    respuesta: RespuestaCarga)

  // ---------------------------------------------------------------- batch pagination

  datatype Paginacion = Paginacion(paginaActual: int, totalPaginas: int, totalRegistros: nat, registrosPorPagina: int)
  datatype PaginaLotes = PaginaLotes(lotes: seq<LoteDoc>, paginacion: Paginacion)

  /** The `?estado=` filter: Python applies it only when the value is truthy. */
  predicate FiltroActivo(estado: Option<string>) {
    estado.Some? && estado.value != ""
  }

  /** The state filter keeps, in their order, only batches in the requested state (and
      by FiltrarCuenta each of them as often as it occurs). */
  function Filtrar(lotes: seq<LoteDoc>, estado: Option<string>): (r: seq<LoteDoc>)
    ensures |r| <= |lotes|
    ensures forall l :: l in r ==> l in lotes
    ensures FiltroActivo(estado) ==> forall l :: l in r ==> l.estado == estado.value
    ensures !FiltroActivo(estado) ==> r == lotes
    ensures Secuencias.Subsecuencia(r, lotes)
  {
    if !FiltroActivo(estado) then
      Secuencias.SubsecuenciaPropia(lotes);
      lotes
    else if |lotes| == 0 then []
    else
      var resto := Filtrar(lotes[1..], estado);
      assert lotes == [lotes[0]] + lotes[1..];
      if lotes[0].estado == estado.value then
        assert ([lotes[0]] + resto)[1..] == resto;
        [lotes[0]] + resto
      else resto
  }

  /** The filter keeps every batch in the requested state as often as the list holds
      it, and no other batch. */
  lemma {:induction false} FiltrarCuenta(lotes: seq<LoteDoc>, estado: Option<string>)
    requires FiltroActivo(estado)
    ensures forall l :: multiset(Filtrar(lotes, estado))[l] == if l.estado == estado.value then multiset(lotes)[l] else 0
  {
    if |lotes| > 0 {
      FiltrarCuenta(lotes[1..], estado);
      assert lotes == [lotes[0]] + lotes[1..];
    }
  }

  /** A filtered batch is kept exactly when it matches the filter. */
  lemma {:induction false} FiltrarMiembro(lotes: seq<LoteDoc>, estado: Option<string>, l: LoteDoc)
    requires FiltroActivo(estado)
    ensures l in Filtrar(lotes, estado) <==> l in lotes && l.estado == estado.value
  {
    if |lotes| > 0 {
      FiltrarMiembro(lotes[1..], estado, l);
      assert lotes == [lotes[0]] + lotes[1..];
    }
  }

  /** The page the endpoint returns from an already fetched (and filtered) list: the
      Python slice `[(page - 1) * limit : page * limit]`, and the whole list's size as
      the record count. For a positive page and limit that is the window of positions
      `(page - 1) * limit` up to `page * limit`, cut at the end of the list. A negative
      limit with a page of at most 0 puts both slice bounds at or above 0 with the end
      before the start, so the page is empty. */
  function Paginar(lotes: seq<LoteDoc>, page: int, limit: int): (r: PaginaLotes)
    requires limit != 0
    ensures r.paginacion.paginaActual == page && r.paginacion.registrosPorPagina == limit
    ensures r.paginacion.totalRegistros == |lotes|
    ensures limit > 0 ==> |r.lotes| <= limit
    ensures limit < 0 && page <= 0 ==> r.lotes == []
    ensures limit > 0 && page >= 1 ==>
              var desde := (page - 1) * limit;
              var inicio := if desde < |lotes| then desde else |lotes|;
              var fin := if desde + limit < |lotes| then desde + limit else |lotes|;
              0 <= desde && r.lotes == lotes[inicio..fin]
  {
    var inicio := (page - 1) * limit;
    VentanaPython(page, limit);
    PaginaLotes(
      PyOps.Slice(lotes, inicio, inicio + limit),
      Paginacion(page, PyOps.FloorDiv(|lotes| + limit - 1, limit), |lotes|, limit))
  }

  /** `GET /api/facturas/lotes` as written: the Firestore query (newest first, already
      ordered in `almacen`) is cut to `limit * page` documents BEFORE the state filter
      and the page slice. Firestore rejects a negative query limit, and `limit == 0`
      divides by zero in the page count; both end in a server error. Any other pair
      succeeds, including a negative page with a negative limit. */
  function ObtenerLotes(almacen: seq<LoteDoc>, page: int, limit: int, estado: Option<string>): (r: Result<PaginaLotes, HttpError>)
    ensures r.Success? <==> limit != 0 && limit * page >= 0
    ensures r.Failure? ==> r.error == HttpError(500, "Internal Server Error")
    ensures r.Success? && limit > 0 ==> |r.value.lotes| <= limit && r.value.paginacion.totalRegistros <= limit * page
    ensures r.Success? && limit < 0 ==> r.value.lotes == []
    ensures r.Success? && FiltroActivo(estado) ==> forall l :: l in r.value.lotes ==> l.estado == estado.value
    ensures r.Success? ==> r.value == Paginar(Filtrar(Leidos(almacen, page, limit), estado), page, limit)
  {
    if limit == 0 || limit * page < 0 then Failure(HttpError(500, "Internal Server Error"))
    else
      Success(Paginar(Filtrar(Leidos(almacen, page, limit), estado), page, limit))
  }

  /** The documents the query reads: the first `limit * page` stored batches (none for
      a zero limit). */
  function Leidos(almacen: seq<LoteDoc>, page: int, limit: int): (r: seq<LoteDoc>)
    requires limit * page >= 0
    ensures |r| <= limit * page && r <= almacen
    ensures |almacen| <= limit * page ==> r == almacen
    ensures |r| == if limit * page < |almacen| then limit * page else |almacen|
  {
    almacen[..if limit * page < |almacen| then limit * page else |almacen|]
  }

  /** The page count is the ceiling of the record count over the page size. */
  lemma TotalPaginasEsTecho(lotes: seq<LoteDoc>, page: int, limit: int)
    requires limit > 0
    ensures var t := Paginar(lotes, page, limit).paginacion.totalPaginas;
            (t - 1) * limit < |lotes| <= t * limit || (|lotes| == 0 && t == 0)
  {
    var t := PyOps.FloorDiv(|lotes| + limit - 1, limit);
    assert Paginar(lotes, page, limit).paginacion.totalPaginas == t;
    TechoEntero(|lotes|, limit);
  }

  /** The ceiling of n / limit, written as Python's `(n + limit - 1) // limit`. */
  lemma TechoEntero(n: nat, limit: int)
    requires limit > 0
    ensures var t := PyOps.FloorDiv(n + limit - 1, limit);
            (t - 1) * limit < n <= t * limit || (n == 0 && t == 0)
  {
    var t := PyOps.FloorDiv(n + limit - 1, limit);
    assert t * limit <= n + limit - 1 < t * limit + limit;
  }

  /** As written, the reported page count never exceeds the page asked for, because
      only `limit * page` documents are ever read. */
  lemma TotalPaginasAcotado(almacen: seq<LoteDoc>, page: int, limit: int, estado: Option<string>)
    requires limit > 0 && page > 0
    ensures ObtenerLotes(almacen, page, limit, estado).value.paginacion.totalPaginas <= page
  {
    TechoAcotado(|Filtrar(Leidos(almacen, page, limit), estado)|, limit, page);
  }

  /** The ceiling of n / limit is at most `page` when n is at most `limit * page`. */
  lemma TechoAcotado(n: nat, limit: int, page: int)
    requires limit > 0 && n <= limit * page
    ensures PyOps.FloorDiv(n + limit - 1, limit) <= page
  {
    var t := PyOps.FloorDiv(n + limit - 1, limit);
    assert t * limit < (page + 1) * limit;
    MenorPorFactor(t, page + 1, limit);
  }

  /** Cancelling a positive factor from a strict inequality. */
  lemma MenorPorFactor(a: int, b: int, c: int)
    requires c > 0 && a * c < b * c
    ensures a < b
  {
  }

  /** Twenty-five stored batches, first page of twenty: the store holds two pages, the
      endpoint reports one page and twenty records. */
  lemma PaginacionPierdeSegundaPagina(almacen: seq<LoteDoc>)
    requires |almacen| == 25
    ensures var r := ObtenerLotes(almacen, 1, 20, None).value;
            r.paginacion.totalPaginas == 1 && r.paginacion.totalRegistros == 20
  {
  }

  /** Pagination over every stored batch that matches the filter. */
  function ObtenerLotesCorregido(almacen: seq<LoteDoc>, page: int, limit: int, estado: Option<string>): (r: Result<PaginaLotes, HttpError>)
    ensures r.Success? <==> limit > 0 && page > 0
    ensures r.Success? ==> r.value.paginacion.totalRegistros == |Filtrar(almacen, estado)|
  {
    if limit <= 0 || page <= 0 then Failure(HttpError(500, "Internal Server Error"))
    else Success(Paginar(Filtrar(almacen, estado), page, limit))
  }

  /** Filtering a prefix of the store gives a prefix of the filtered store. */
  lemma {:induction false} FiltrarPrefijo(almacen: seq<LoteDoc>, n: nat, estado: Option<string>)
    requires n <= |almacen|
    ensures var a, b := Filtrar(almacen[..n], estado), Filtrar(almacen, estado);
            |a| <= |b| && a == b[..|a|]
  {
    if FiltroActivo(estado) && n > 0 {
      var a, b := Filtrar(almacen[1..][..n - 1], estado), Filtrar(almacen[1..], estado);
      FiltrarPrefijo(almacen[1..], n - 1, estado);
      assert almacen[..n][1..] == almacen[1..][..n - 1];
      if almacen[0].estado == estado.value {
        assert Filtrar(almacen[..n], estado) == [almacen[0]] + a;
        assert Filtrar(almacen, estado) == [almacen[0]] + b;
        assert ([almacen[0]] + b)[..|a| + 1] == [almacen[0]] + b[..|a|];
      }
    }
  }

  /** What the page as written shows is always the beginning of the corrected page:
      it never shows a wrong batch or a wrong order, only possibly fewer. With no
      state filter, or when the store holds at most `limit * page` batches, the two
      pages list the same batches. */
  lemma PaginaEscritaEsPrefijo(almacen: seq<LoteDoc>, page: int, limit: int, estado: Option<string>)
    requires limit > 0 && page > 0
    ensures var a := ObtenerLotes(almacen, page, limit, estado).value.lotes;
            var b := ObtenerLotesCorregido(almacen, page, limit, estado).value.lotes;
            |a| <= |b| && a == b[..|a|]
            && (!FiltroActivo(estado) || |almacen| <= limit * page ==> a == b)
  {
    var leidos := Leidos(almacen, page, limit);
    FiltrarPrefijo(almacen, |leidos|, estado);
    assert almacen[..|leidos|] == leidos;
    var fa, fb := Filtrar(leidos, estado), Filtrar(almacen, estado);
    PaginaDePrefijo(fa, fb, page, limit);
  }

  /** The pages of a prefix of a list are prefixes of that list's pages, and equal
      to them when the prefix reaches the page's end. */
  lemma PaginaDePrefijo(fa: seq<LoteDoc>, fb: seq<LoteDoc>, page: int, limit: int)
    requires limit > 0 && page > 0
    requires |fa| <= |fb| && fa == fb[..|fa|]
    ensures var a, b := Paginar(fa, page, limit).lotes, Paginar(fb, page, limit).lotes;
            |a| <= |b| && a == b[..|a|] && (|fa| >= page * limit || fa == fb ==> a == b)
  {
    PaginaSiguiente(page, limit);
    TramoDePrefijo(fa, fb, (page - 1) * limit, page * limit);
  }

  lemma PaginaSiguiente(page: int, limit: int)
    requires limit > 0 && page > 0
    ensures 0 <= (page - 1) * limit < page * limit
  {
    assert page * limit == (page - 1) * limit + limit;
  }

  /** Where the slice bounds of `Paginar` fall: the window starts at 0 or later for a
      positive page and limit, and lies at or above 0 with its end before its start for
      a negative limit and a page of at most 0. */
  lemma VentanaPython(page: int, limit: int)
    ensures limit > 0 && page >= 1 ==> 0 <= (page - 1) * limit
    ensures limit < 0 && page <= 0 ==> 0 <= (page - 1) * limit + limit < (page - 1) * limit
  {
    assert (page - 1) * limit + limit == page * limit;
    if limit < 0 && page <= 0 {
      assert page * limit == (-page) * (-limit);
    }
  }

  /** The same window cut from a prefix of a list and from the list. */
  lemma TramoDePrefijo(fa: seq<LoteDoc>, fb: seq<LoteDoc>, i: nat, j: nat)
    requires i <= j && |fa| <= |fb| && fa == fb[..|fa|]
    ensures var a := fa[(if i < |fa| then i else |fa|)..(if j < |fa| then j else |fa|)];
            var b := fb[(if i < |fb| then i else |fb|)..(if j < |fb| then j else |fb|)];
            |a| <= |b| && a == b[..|a|] && (|fa| >= j || fa == fb ==> a == b)
  {
    if i < |fa| {
      var finA := if j < |fa| then j else |fa|;
      assert fa[i..finA] == fb[i..finA];
    }
  }

  /** With the corrected pagination every matching batch is on page k / limit + 1
      (counting matches from 0), at position k % limit, and that page is within the
      reported page count. */
  lemma CorregidoCubreTodo(almacen: seq<LoteDoc>, limit: int, estado: Option<string>, k: nat)
    requires limit > 0
    requires k < |Filtrar(almacen, estado)|
    ensures var page := k / limit + 1;
            var r := ObtenerLotesCorregido(almacen, page, limit, estado).value;
            k % limit < |r.lotes| && r.lotes[k % limit] == Filtrar(almacen, estado)[k]
            && page <= r.paginacion.totalPaginas
  {
    var f := Filtrar(almacen, estado);
    var page := k / limit + 1;
    var inicio := (page - 1) * limit;
    PaginaDeIndice(k, |f|, limit);
    var r := Paginar(f, page, limit);
    assert r.lotes == PyOps.Slice(f, inicio, inicio + limit);
    var fin := if inicio + limit < |f| then inicio + limit else |f|;
    assert r.lotes == f[inicio..fin];
  }

  /** Index k lies at offset k % limit of page k / limit + 1, and that page is within
      the ceiling of n / limit when k < n. */
  lemma PaginaDeIndice(k: nat, n: nat, limit: int)
    requires limit > 0 && k < n
    ensures (k / limit + 1 - 1) * limit + k % limit == k
    ensures 0 <= (k / limit + 1 - 1) * limit && k % limit < limit
    ensures k / limit + 1 <= PyOps.FloorDiv(n + limit - 1, limit)
  {
    var q := k / limit;
    var t := PyOps.FloorDiv(n + limit - 1, limit);
    assert q * limit <= k;
    assert q * limit < t * limit + limit - limit + 1;
    MenorPorFactor(q, t + 1, limit);
  }

  // ---------------------------------------------------------------- exception statistics

  datatype Estadisticas = Estadisticas(total: nat, pendientes: nat, resueltas: int)

  /** The management state the statistics count as pending. */
  predicate Pendiente(e: ExcepcionGuardada) {
    e.datos.estadoGestion == "Pendiente"
  }

  /** `len([e for e in excepciones if e.get('estadoGestion') == 'Pendiente'])`: the
      number of positions holding a pending exception. */
  function ContarPendientes(excs: seq<ExcepcionGuardada>): (n: nat)
    ensures n <= |excs|
    ensures n == |Secuencias.Posiciones(excs, Pendiente)|
  {
    if |excs| == 0 then
      assert Secuencias.Posiciones(excs, Pendiente) == {};
      0
    else
      var k := |excs| - 1;
      Secuencias.PosicionesPrefijo(excs, Pendiente, k);
      assert excs[..k + 1] == excs;
      ContarPendientes(excs[..k]) + (if Pendiente(excs[k]) then 1 else 0)
  }

  /** The statistics block of `GET /api/terceros/excepciones`. */
  function EstadisticasExcepciones(excs: seq<ExcepcionGuardada>): (r: Estadisticas)
    ensures r.total == |excs|
    ensures r.pendientes == |Secuencias.Posiciones(excs, Pendiente)|
    ensures r.pendientes + r.resueltas == r.total
    ensures 0 <= r.resueltas
    ensures r.pendientes == 0 <==> forall e :: e in excs ==> e.datos.estadoGestion != "Pendiente"
  {
    var p := ContarPendientes(excs);
    SinPendientes(excs);
    Estadisticas(|excs|, p, |excs| - p)
  }

  lemma {:induction false} SinPendientes(excs: seq<ExcepcionGuardada>)
    ensures ContarPendientes(excs) == 0 <==> forall e :: e in excs ==> e.datos.estadoGestion != "Pendiente"
  {
    if |excs| > 0 {
      var k := |excs| - 1;
      SinPendientes(excs[..k]);
      assert excs == excs[..k] + [excs[k]];
    }
  }

  // ---------------------------------------------------------------- exception actions

  /** `accion_map`: the management state each action leads to. */
  function AccionMap(accion: string): (r: Option<string>)
    ensures r.Some? <==> accion in {"corregir", "crear", "ignorar", "reintentar"}
    ensures r.Some? ==> r.value != "Pendiente"
  {
    match accion
    case "corregir" => Some("Corregida")
    case "crear" => Some("En_Creacion_Manual")
    case "ignorar" => Some("Ignorada")
    case "reintentar" => Some("Reintentando")
    case _ => None
  }

  /** Different actions lead to different management states. */
  lemma AccionMapInyectiva(a: string, b: string)
    requires AccionMap(a).Some? && AccionMap(b).Some? && a != b
    ensures AccionMap(a).value != AccionMap(b).value
  {
  }

  /** The request body: the keys it carries (None when a key is absent). */
  datatype Payload = Payload(notas: Option<string>, datosCorreccion: Option<string>)

  datatype Actualizacion = Actualizacion(
    excepcionId: string,
    accionAplicada: string,
    estadoAnterior: string,
    estadoNuevo: string,
    actualizada: Excepcion)

  function Buscar(excs: seq<ExcepcionGuardada>, id: string): (r: Option<ExcepcionGuardada>)
    ensures r.Some? <==> exists i :: 0 <= i < |excs| && excs[i].id == id
    ensures r.Some? ==> r.value in excs && r.value.id == id
  {
    if |excs| == 0 then None
    else if excs[0].id == id then Some(excs[0])
    else
      var r := Buscar(excs[1..], id);
      assert forall i :: 1 <= i < |excs| ==> excs[i] == excs[1..][i - 1];
      r
  }

  /** The Firestore update: the management state, plus the notes and correction data
      when the body carries those keys. */
  function Aplicar(e: Excepcion, estadoGestion: string, payload: Option<Payload>): (r: Excepcion)
    ensures r.estadoGestion == estadoGestion
    ensures r.estadoValidacion == e.estadoValidacion && r.documento == e.documento
    ensures r.loteId == e.loteId && r.filaOrigen == e.filaOrigen && r.nombreReportado == e.nombreReportado
    ensures r.notas == (if payload.Some? && payload.value.notas.Some? then payload.value.notas else e.notas)
    ensures r.datosCorreccion == (if payload.Some? && payload.value.datosCorreccion.Some? then payload.value.datosCorreccion else e.datosCorreccion)
  {
    var conNotas := if payload.Some? && payload.value.notas.Some? then e.(notas := payload.value.notas) else e;
    var conDatos := if payload.Some? && payload.value.datosCorreccion.Some? then conNotas.(datosCorreccion := payload.value.datosCorreccion) else conNotas;
    conDatos.(estadoGestion := estadoGestion)
  }

  /** `POST /api/terceros/excepciones/{id}/{action}`: 404 for an unknown id, then 400
      for an unknown action, then 500 when the store refuses the write. */
  function ActualizarEstadoTercero(excs: seq<ExcepcionGuardada>, id: string, accion: string, payload: Option<Payload>, escrituraOk: bool): (r: Result<Actualizacion, HttpError>)
    ensures Buscar(excs, id).None? ==> r == Failure(HttpError(404, "Excepción no encontrada"))
    ensures Buscar(excs, id).Some? && AccionMap(accion).None? ==> r == Failure(HttpError(400, "Acción no válida"))
    ensures Buscar(excs, id).Some? && AccionMap(accion).Some? && !escrituraOk ==> r == Failure(HttpError(500, "Error al actualizar excepción"))
    ensures r.Success? <==> Buscar(excs, id).Some? && AccionMap(accion).Some? && escrituraOk
    ensures r.Success? ==>
              r.value.estadoNuevo == AccionMap(accion).value
              && r.value.estadoAnterior == Buscar(excs, id).value.datos.estadoValidacion
              && r.value.actualizada.estadoGestion == r.value.estadoNuevo
              && r.value.actualizada.estadoValidacion == r.value.estadoAnterior
    ensures r.Success? ==>
              r.value.excepcionId == id && r.value.accionAplicada == accion
              && r.value.actualizada == Aplicar(Buscar(excs, id).value.datos, r.value.estadoNuevo, payload)
  {
    match Buscar(excs, id)
    case None => Failure(HttpError(404, "Excepción no encontrada"))
    case Some(g) =>
      match AccionMap(accion)
      case None => Failure(HttpError(400, "Acción no válida"))
      case Some(nuevo) =>
        if !escrituraOk then Failure(HttpError(500, "Error al actualizar excepción"))
        else Success(Actualizacion(id, accion, g.datos.estadoValidacion, nuevo, Aplicar(g.datos, nuevo, payload)))
  }

  /** The endpoint never looks at the exception's current management state: an
      exception already corrected, ignored or in manual creation takes any action
      again, with the same outcome. */
  lemma EstadoActualIgnorado(pre: seq<ExcepcionGuardada>, post: seq<ExcepcionGuardada>, i: nat, otro: string,
                             accion: string, payload: Option<Payload>, ok: bool)
    requires i < |pre| && forall j :: 0 <= j < i ==> pre[j].id != pre[i].id
    requires post == pre[i := ExcepcionGuardada(pre[i].id, pre[i].datos.(estadoGestion := otro))]
    ensures ActualizarEstadoTercero(pre, pre[i].id, accion, payload, ok).Success?
            == ActualizarEstadoTercero(post, pre[i].id, accion, payload, ok).Success?
    ensures ActualizarEstadoTercero(pre, pre[i].id, accion, payload, ok).Success? ==>
            ActualizarEstadoTercero(pre, pre[i].id, accion, payload, ok).value
            == ActualizarEstadoTercero(post, pre[i].id, accion, payload, ok).value
  {
    BuscarTrasCambio(pre, i, otro);
  }

  lemma {:induction false} BuscarTrasCambio(pre: seq<ExcepcionGuardada>, i: nat, otro: string)
    requires i < |pre| && forall j :: 0 <= j < i ==> pre[j].id != pre[i].id
    ensures Buscar(pre, pre[i].id) == Some(pre[i])
    ensures var g := ExcepcionGuardada(pre[i].id, pre[i].datos.(estadoGestion := otro));
            Buscar(pre[i := g], pre[i].id) == Some(g)
  {
    var g := ExcepcionGuardada(pre[i].id, pre[i].datos.(estadoGestion := otro));
    if i > 0 {
      assert pre[i := g][1..] == pre[1..][i - 1 := g];
      BuscarTrasCambio(pre[1..], i - 1, otro);
    }
  }
}
