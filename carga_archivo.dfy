/** src/components/Facturas/CargaArchivo.jsx: the upload form. A chosen file is kept
    only when its extension is one of five; it then gets a preview with the detected
    format. Submitting uploads it through the batch context with client and format
    'auto' and clears the form. Drag-and-drop only feeds the same check. */
module CargaArchivo {
  import opened Wrappers
  import opened Text
  import opened Api
  import opened FacturasContext
  import FlaskApp

  const EXTENSIONES_VALIDAS: seq<string> := ["xlsx", "xls", "csv", "xml", "txt"]

  const FORMATO_NO_VALIDO: string := "Formato no válido. Use archivos de facturación (Excel, CSV, XML, TXT)."

  /** `file.name.split('.').pop().toLowerCase()`: a name without a dot is its own
      extension. */
  function ExtensionDe(nombre: string): (e: string)
    ensures '.' !in nombre ==> e == ToLower(nombre)
    ensures '.' !in e
  {
    ToLower(AfterLastDot(nombre))
  }

  datatype Archivo = Archivo(nombre: string, tamano: nat)

  /** The preview; the size is kept in bytes (its "KB" rendering is not modelled). */
  datatype VistaPrevia = VistaPrevia(nombre: string, tamano: nat, formato: string, icono: string)

  /** The detected format and icon of `generarVistaPrevia`. */
  function FormatoDetectado(ext: string): (r: (string, string))
    ensures r.0 == "Desconocido" <==> ext !in EXTENSIONES_VALIDAS
    ensures r.0 == "Excel/CSV" <==> ext in ["xlsx", "xls", "csv"]
    ensures r.0 == "XML" <==> ext == "xml"
    ensures r.0 == "TXT" <==> ext == "txt"
  {
    if ext in ["xlsx", "xls", "csv"] then ("Excel/CSV", "📊")
    else if ext == "xml" then ("XML", "📋")
    else if ext == "txt" then ("TXT", "📝")
    else ("Desconocido", "📄")
  }

  /** `generarVistaPrevia`: the file's own name and size, and the format and icon its
      extension selects. */
  function VistaPreviaDe(f: Archivo): (r: VistaPrevia)
    ensures r.nombre == f.nombre && r.tamano == f.tamano
    ensures r.formato != "Desconocido" <==> ExtensionDe(f.nombre) in EXTENSIONES_VALIDAS
  {
    var (formato, icono) := FormatoDetectado(ExtensionDe(f.nombre));
    VistaPrevia(f.nombre, f.tamano, formato, icono)
  }

  /** The form's own state. */
  class Formulario {
    var archivo: Option<Archivo>
    var vistaPrevia: Option<VistaPrevia>

    constructor()
      ensures archivo.None? && vistaPrevia.None?
    {
      archivo := None;
      vistaPrevia := None;
    }

    /** `procesarArchivo`: a file with a valid extension becomes the selected file and
        gets a preview, whose format is then never "Desconocido"; any other file only
        raises the notice and leaves the form as it was. */
    method ProcesarArchivo(f: Archivo, ctx: Registro)
      modifies this, ctx
      ensures ctx.lotes == old(ctx.lotes) && ctx.loteSeleccionado == old(ctx.loteSeleccionado)
      ensures ctx.errores == old(ctx.errores) && ctx.cargando == old(ctx.cargando)
      ensures ExtensionDe(f.nombre) in EXTENSIONES_VALIDAS ==>
                archivo == Some(f) && vistaPrevia == Some(VistaPreviaDe(f))
                && vistaPrevia.value.formato != "Desconocido" && ctx.mensaje == old(ctx.mensaje)
      ensures ExtensionDe(f.nombre) !in EXTENSIONES_VALIDAS ==>
                archivo == old(archivo) && vistaPrevia == old(vistaPrevia)
                && ctx.mensaje == Mensaje("error", FORMATO_NO_VALIDO)
    {
      if ExtensionDe(f.nombre) in EXTENSIONES_VALIDAS {
        vistaPrevia := Some(VistaPreviaDe(f));
        archivo := Some(f);
      } else {
        ctx.SetMensaje(Mensaje("error", FORMATO_NO_VALIDO));
      }
    }

    /** `handleSubmit`: without a file only the notice is set; with one, the batch
        context receives it with client and format 'auto', so the new batch is
        "Cliente C", 'Procesando' and error-free, and the form is cleared. */
    method HandleSubmit(ctx: Registro, fecha: string, s: Sorteos) returns (subido: Option<Lote>)
      requires ctx.Valid()
      modifies this, ctx
      ensures ctx.Valid()
      ensures ctx.loteSeleccionado == old(ctx.loteSeleccionado) && ctx.errores == old(ctx.errores)
      ensures old(archivo).None? ==>
                subido.None? && ctx.mensaje == Mensaje("error", "Debe seleccionar un archivo")
                && ctx.lotes == old(ctx.lotes) && ctx.cargando == old(ctx.cargando)
                && archivo == old(archivo) && vistaPrevia == old(vistaPrevia)
      ensures old(archivo).Some? ==>
                subido == Some(LoteSubido(|old(ctx.lotes)| + 1, old(archivo).value.nombre, fecha, "auto", "auto", s))
                && ctx.lotes == [subido.value] + old(ctx.lotes)
                && ctx.mensaje == Mensaje("exito", "Archivo subido correctamente") && !ctx.cargando
                && archivo.None? && vistaPrevia.None?
      ensures subido.Some? ==>
                subido.value.cliente == "Cliente C" && subido.value.estado == "Procesando" && subido.value.errores == 0
    {
      if archivo.None? {
        ctx.SetMensaje(Mensaje("error", "Debe seleccionar un archivo"));
        return None;
      }
      var lote := ctx.SubirArchivo(archivo.value.nombre, fecha, "auto", "auto", s);
      subido := Some(lote);
      archivo := None;
      vistaPrevia := None;
    }

    /** `limpiarFormulario`. */
    method LimpiarFormulario()
      modifies this
      ensures archivo.None? && vistaPrevia.None?
    {
      archivo := None;
      vistaPrevia := None;
    }
  }

  /** The form and the Flask back end disagree on extensions: every name the back end
      allows the form accepts, and the only names the form accepts beyond those are
      '.xls' files and dot-less names. */
  lemma FormularioMasPermisivoQueFlask(nombre: string)
    ensures FlaskApp.AllowedFile(nombre) ==> ExtensionDe(nombre) in EXTENSIONES_VALIDAS
    ensures ExtensionDe(nombre) in EXTENSIONES_VALIDAS && !FlaskApp.AllowedFile(nombre) ==>
              ExtensionDe(nombre) == "xls" || '.' !in nombre
  {
    var e := ExtensionDe(nombre);
    assert e in EXTENSIONES_VALIDAS <==> e == "xls" || e in FlaskApp.ALLOWED_EXTENSIONS;
  }

  /** Two names on which they disagree: "libro.xls" and "csv". */
  lemma DiscrepanciasConFlask()
    ensures ExtensionDe("libro.xls") in EXTENSIONES_VALIDAS && !FlaskApp.AllowedFile("libro.xls")
    ensures ExtensionDe("csv") in EXTENSIONES_VALIDAS && !FlaskApp.AllowedFile("csv")
  {
    assert AfterLastDot("libro.xls") == "xls" by {
      assert "libro.xls"[|"libro.xls"| - 3..] == "xls";
      assert "libro.xls"[|"libro.xls"| - 4] == '.';
    }
    assert ToLower("xls") == "xls";
    assert ToLower("csv") == "csv";
  }
}
