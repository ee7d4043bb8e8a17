/** src/contexts/ProductosContext.jsx: the state holder for products whose invoice
    description matched no catalogue entry. A product is confirmed against a catalogue
    code or marked for manual creation; neither update looks at the product's current
    state, and both touch only the product with the given id. */
module ProductosContext {
  import opened Wrappers
  import opened Text
  import opened Api
  import Secuencias

  /** The suggestion stored on a product: code, name and confidence only. */
  datatype SugerenciaProducto = SugerenciaProducto(codigo: string, nombre: string, confianza: int)

  /** A suggestion returned by the matcher. */
  datatype SugerenciaIA = SugerenciaIA(
    codigo: string, nombre: string, descripcion: string, confianza: int, categoria: string, marca: string)

  /** A product without a catalogue match; `confianzaIA`, `sugerenciaIA`,
      `codigoAsignado` and `notasCreacion` may be absent. The detection and update
      timestamps are not modelled. */
  datatype Producto = Producto(
    id: int,
    loteId: string,
    filaOriginal: int,
    descripcionOriginal: string,
    cliente: string,
    estadoHomologacion: string,
    confianzaIA: Option<int>,
    intentosMatch: int,
    sugerenciaIA: Option<SugerenciaProducto>,
    codigoAsignado: Option<string>,
    notasCreacion: Option<string>)

  /** No two products share an id. */
  predicate IdsUnicos(ps: seq<Producto>) {
    forall i, j :: 0 <= i < j < |ps| ==> ps[i].id != ps[j].id
  }

  /** The three products the provider starts with. */
  function ProductosDemo(): (r: seq<Producto>)
    ensures |r| == 3 && IdsUnicos(r)
    ensures forall i :: 0 <= i < |r| ==> r[i].id == i + 1 && r[i].codigoAsignado.None? && r[i].notasCreacion.None?
    ensures forall i :: 0 <= i < |r| ==> (r[i].sugerenciaIA.Some? <==> i == 2)
    ensures forall i :: 0 <= i < |r| ==> (r[i].estadoHomologacion == "Pendiente" <==> i < 2)
    ensures r[2].estadoHomologacion == "Baja_Confianza" && r[2].confianzaIA == Some(45)
  {
    [Producto(1, "L001", 15, "Arroz Extra largo grano 1kg", "Olímpica", "Pendiente", None, 0, None, None, None),
     Producto(2, "L001", 28, "Aceite Vegetal Girasol 500ml", "Comiagro", "Pendiente", None, 0, None, None, None),
     Producto(3, "L002", 5, "Azucar refinada blanca 2kg", "Cliente Regional", "Baja_Confianza", Some(45), 1,
              Some(SugerenciaProducto("BMC-AZ-001", "Azúcar refinada especial 2kg", 45)), None, None)]
  }

  /** The matcher's simulated answer: five rice products, whatever the description,
      in strictly descending confidence between 60 and 95, with pairwise distinct
      codes (the selection dialog identifies a suggestion by its code). */
  function SugerenciasDemo(): (r: seq<SugerenciaIA>)
    ensures |r| == 5
    ensures forall i, j :: 0 <= i < j < |r| ==> r[i].confianza > r[j].confianza
    ensures forall i :: 0 <= i < |r| ==> 60 <= r[i].confianza <= 95
    ensures forall i :: 0 <= i < |r| ==> |r[i].codigo| == 10 && r[i].codigo[9] == DigitChar(i + 1)
  {
    [SugerenciaIA("BMC-AR-001", "Arroz Extra Premium 1kg", "Arroz extra largo grano premium calidad exportación",
                  95, "Granos y Cereales", "Premium Select"),
     SugerenciaIA("BMC-AR-002", "Arroz Extra Largo 1kg", "Arroz extra largo grano seleccionado",
                  88, "Granos y Cereales", "Tradición"),
     SugerenciaIA("BMC-AR-003", "Arroz Grano Largo 1kg", "Arroz grano largo calidad superior",
                  75, "Granos y Cereales", "Campo Verde"),
     SugerenciaIA("BMC-AR-004", "Arroz Blanco Extra 1kg", "Arroz blanco extra procesado",
                  68, "Granos y Cereales", "Doña Rosa"),
     SugerenciaIA("BMC-AR-005", "Arroz Especial 1000g", "Arroz especial grano selecto",
                  60, "Granos y Cereales", "La Despensa")]
  }

  /** The codes of the simulated suggestions are pairwise distinct. */
  lemma CodigosDistintos()
    ensures forall i, j :: 0 <= i < j < |SugerenciasDemo()| ==> SugerenciasDemo()[i].codigo != SugerenciasDemo()[j].codigo
  {
    var r := SugerenciasDemo();
    forall i, j | 0 <= i < j < |r|
      ensures r[i].codigo != r[j].codigo
    {
      assert r[i].codigo[9] == DigitChar(i + 1) && r[j].codigo[9] == DigitChar(j + 1);
    }
  }

  /** The `map` in `confirmarMatch`: the product with that id becomes 'Homologado'
      with the chosen code; nothing else changes. */
  function Homologar(ps: seq<Producto>, id: int, codigo: string): (r: seq<Producto>)
    ensures |r| == |ps|
    ensures forall i :: 0 <= i < |ps| && ps[i].id != id ==> r[i] == ps[i]
    ensures forall i :: 0 <= i < |ps| && ps[i].id == id ==>
              r[i].estadoHomologacion == "Homologado" && r[i].codigoAsignado == Some(codigo)
              && r[i].(estadoHomologacion := ps[i].estadoHomologacion, codigoAsignado := ps[i].codigoAsignado) == ps[i]
  {
    seq(|ps|, i requires 0 <= i < |ps| =>
      if ps[i].id == id then ps[i].(estadoHomologacion := "Homologado", codigoAsignado := Some(codigo)) else ps[i])
  }

  /** The `map` in `marcarParaCreacion`: the product with that id becomes
      'Para_Creacion' with the given notes; its assigned code, if any, stays. */
  function MarcarCreacion(ps: seq<Producto>, id: int, notas: string): (r: seq<Producto>)
    ensures |r| == |ps|
    ensures forall i :: 0 <= i < |ps| && ps[i].id != id ==> r[i] == ps[i]
    ensures forall i :: 0 <= i < |ps| && ps[i].id == id ==>
              r[i].estadoHomologacion == "Para_Creacion" && r[i].notasCreacion == Some(notas)
              && r[i].(estadoHomologacion := ps[i].estadoHomologacion, notasCreacion := ps[i].notasCreacion) == ps[i]
  {
    seq(|ps|, i requires 0 <= i < |ps| =>
      if ps[i].id == id then ps[i].(estadoHomologacion := "Para_Creacion", notasCreacion := Some(notas)) else ps[i])
  }

  /** The products in a given state, in list order (the `filter`s on
      `estadoHomologacion`). */
  function ConEstado(ps: seq<Producto>, estado: string): (r: seq<Producto>)
    ensures |r| <= |ps|
    ensures forall p :: p in r <==> p in ps && p.estadoHomologacion == estado
    ensures Secuencias.Subsecuencia(r, ps)
  {
    if |ps| == 0 then []
    else
      var resto := ConEstado(ps[1..], estado);
      if ps[0].estadoHomologacion == estado then
        assert ([ps[0]] + resto)[1..] == resto;
        [ps[0]] + resto
      else resto
  }

  /** The filter's count, one product at a time. */
  lemma ConEstadoPaso(ps: seq<Producto>, estado: string)
    requires |ps| > 0
    ensures |ConEstado(ps, estado)| == (if ps[0].estadoHomologacion == estado then 1 else 0) + |ConEstado(ps[1..], estado)|
  {
  }

  /** The filter keeps every product in the state as often as the list holds it, and
      no other product. */
  lemma {:induction false} ConEstadoCuenta(ps: seq<Producto>, estado: string)
    ensures forall p :: multiset(ConEstado(ps, estado))[p] == if p.estadoHomologacion == estado then multiset(ps)[p] else 0
  {
    if |ps| > 0 {
      ConEstadoCuenta(ps[1..], estado);
      assert ps == [ps[0]] + ps[1..];
    }
  }

  /** Neither update checks the current state: a confirmed product can be marked for
      creation, keeping its code, and a product marked for creation can be confirmed,
      keeping its notes. */
  lemma SinControlDeEstado(ps: seq<Producto>, id: int, codigo: string, notas: string, i: nat)
    requires i < |ps| && ps[i].id == id
    ensures var q := MarcarCreacion(Homologar(ps, id, codigo), id, notas)[i];
            q.estadoHomologacion == "Para_Creacion" && q.codigoAsignado == Some(codigo)
    ensures var q := Homologar(MarcarCreacion(ps, id, notas), id, codigo)[i];
            q.estadoHomologacion == "Homologado" && q.notasCreacion == Some(notas)
  {
  }

  /** Both updates keep the ids, so they keep them unique. */
  lemma ActualizacionesConservanIds(ps: seq<Producto>, id: int, codigo: string, notas: string)
    requires IdsUnicos(ps)
    ensures IdsUnicos(Homologar(ps, id, codigo)) && IdsUnicos(MarcarCreacion(ps, id, notas))
  {
    var h := Homologar(ps, id, codigo);
    var m := MarcarCreacion(ps, id, notas);
    assert forall i :: 0 <= i < |ps| ==> h[i].id == ps[i].id && m[i].id == ps[i].id;
  }

  /** Marking a product that is not yet 'Para_Creacion' adds exactly one product to the
      creation list, so the count in the download notice grows by one. */
  lemma {:induction false} MarcarSumaUno(ps: seq<Producto>, id: int, notas: string, k: nat)
    requires IdsUnicos(ps)
    requires k < |ps| && ps[k].id == id && ps[k].estadoHomologacion != "Para_Creacion"
    ensures |ConEstado(MarcarCreacion(ps, id, notas), "Para_Creacion")| == |ConEstado(ps, "Para_Creacion")| + 1
  {
    var m := MarcarCreacion(ps, id, notas);
    assert m[1..] == MarcarCreacion(ps[1..], id, notas);
    if k == 0 {
      SinEseId(ps[1..], id, notas);
    } else {
      assert ps[0].id != id by { assert ps[0].id != ps[k].id; }
      MarcarSumaUno(ps[1..], id, notas, k - 1);
    }
  }

  /** Marking an id no product has changes nothing. */
  lemma SinEseId(ps: seq<Producto>, id: int, notas: string)
    requires forall i :: 0 <= i < |ps| ==> ps[i].id != id
    ensures MarcarCreacion(ps, id, notas) == ps
  {
  }

  /** The notice of `descargarProductosParaCreacion` for a given number of products. */
  function MensajeDescarga(n: nat): (m: Mensaje)
    ensures n == 0 <==> m.tipo == "warning"
    ensures n > 0 ==> m.tipo == "exito" && StartsWith(m.texto, "Excel generado con ")
    ensures n > 0 ==> m.texto[|"Excel generado con "|..] == NatToString(n) + " productos para creación"
  {
    if n == 0 then Mensaje("warning", "No hay productos marcados para creación")
    else Mensaje("exito", "Excel generado con " + NatToString(n) + " productos para creación")
  }

  /** The provider's state, as it is once the mount effect has loaded the products. */
  class Registro {
    var productos: seq<Producto>
    var productoSeleccionado: Option<Producto>
    var sugerenciasIA: seq<SugerenciaIA>
    var cargando: bool
    var mensaje: Mensaje

    predicate Valid()
      reads this
    {
      IdsUnicos(productos)
    }

    constructor()
      ensures productos == ProductosDemo() && productoSeleccionado.None? && sugerenciasIA == []
      ensures !cargando && mensaje == SIN_MENSAJE && Valid()
    {
      productos := ProductosDemo();
      productoSeleccionado := None;
      sugerenciasIA := [];
      cargando := false;
      mensaje := SIN_MENSAJE;
    }

    /** `setProductoSeleccionado`. */
    method SeleccionarProducto(p: Option<Producto>)
      modifies this
      ensures productoSeleccionado == p
      ensures productos == old(productos) && sugerenciasIA == old(sugerenciasIA)
      ensures cargando == old(cargando) && mensaje == old(mensaje)
    {
      productoSeleccionado := p;
    }

    /** `obtenerSugerenciasIA`: the description is not used; the simulated suggestions
      are stored and returned. */
    method ObtenerSugerenciasIA(descripcion: string) returns (r: seq<SugerenciaIA>)
      modifies this
      ensures r == SugerenciasDemo() && sugerenciasIA == r && !cargando
      ensures productos == old(productos) && productoSeleccionado == old(productoSeleccionado)
      ensures mensaje == old(mensaje)
    {
      cargando := true;
      r := SugerenciasDemo();
      sugerenciasIA := r;
      cargando := false;
    }

    /** `confirmarMatch`. */
    method ConfirmarMatch(productoId: int, codigoSeleccionado: string)
      requires Valid()
      modifies this
      ensures productos == Homologar(old(productos), productoId, codigoSeleccionado) && Valid()
      ensures mensaje == Mensaje("exito", "Producto homologado exitosamente") && !cargando
      ensures productoSeleccionado == old(productoSeleccionado) && sugerenciasIA == old(sugerenciasIA)
    {
      cargando := true;
      ActualizacionesConservanIds(productos, productoId, codigoSeleccionado, "");
      productos := Homologar(productos, productoId, codigoSeleccionado);
      mensaje := Mensaje("exito", "Producto homologado exitosamente");
      cargando := false;
    }

    /** `marcarParaCreacion`; the notes default to the empty string at the call sites
      that omit them. */
    method MarcarParaCreacion(productoId: int, notas: string)
      requires Valid()
      modifies this
      ensures productos == MarcarCreacion(old(productos), productoId, notas) && Valid()
      ensures mensaje == Mensaje("info", "Producto marcado para creación manual") && !cargando
      ensures productoSeleccionado == old(productoSeleccionado) && sugerenciasIA == old(sugerenciasIA)
    {
      cargando := true;
      ActualizacionesConservanIds(productos, productoId, "", notas);
      productos := MarcarCreacion(productos, productoId, notas);
      mensaje := Mensaje("info", "Producto marcado para creación manual");
      cargando := false;
    }

    /** `descargarProductosParaCreacion`: the notice reports how many products are
      marked for creation, or warns that there are none; the list is not changed. */
    method DescargarProductosParaCreacion() returns (n: nat)
      modifies this
      ensures n == |ConEstado(productos, "Para_Creacion")|
      ensures mensaje == MensajeDescarga(n) && !cargando
      ensures productos == old(productos) && productoSeleccionado == old(productoSeleccionado)
      ensures sugerenciasIA == old(sugerenciasIA)
    {
      cargando := true;
      var paraCreacion := ConEstado(productos, "Para_Creacion");
      n := |paraCreacion|;
      if n == 0 {
        mensaje := Mensaje("warning", "No hay productos marcados para creación");
        cargando := false;
        return;
      }
      mensaje := Mensaje("exito", "Excel generado con " + NatToString(n) + " productos para creación");
      cargando := false;
    }
  }
}
