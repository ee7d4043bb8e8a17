/** src/components/Productos/EstadisticasProductos.jsx: the product statistics panel.
    It counts products per state, shows the progress (confirmed plus marked for
    creation) as a rounded percentage of the total, and breaks the counts down per
    client with a `reduce` over the list. */
module EstadisticasProductos {
  import opened Wrappers
  import opened ProductosContext

  /** `Math.round(a / b * 100)` for counts: the percentage rounded half up, in integer
      arithmetic (the floating-point error of the division is not modelled). */
  function Redondeo(a: nat, b: nat): (r: nat)
    requires b > 0
    ensures 2 * r * b <= 200 * a + b < 2 * r * b + 2 * b
    ensures a <= b ==> r <= 100
    ensures a == 0 ==> r == 0
    ensures a == b ==> r == 100
  {
    RedondeoPropiedades(a, b);
    (200 * a + b) / (2 * b)
  }

  lemma RedondeoPropiedades(a: nat, b: nat)
    requires b > 0
    ensures var r := (200 * a + b) / (2 * b);
            2 * r * b <= 200 * a + b < 2 * r * b + 2 * b
            && (a <= b ==> r <= 100) && (a == 0 ==> r == 0) && (a == b ==> r == 100)
  {
    var r := (200 * a + b) / (2 * b);
    RedondeoAcotado(200 * a + b, 2 * b, r);
    if a <= b {
      assert 200 * a + b < 101 * (2 * b);
      CotaCociente(r, 101, 2 * b);
    }
    if a == 0 {
      CotaCociente(r, 1, 2 * b);
    }
    if a == b {
      assert 200 * a + b == 100 * (2 * b) + b;
      CotaCociente(99, r, 2 * b);
    }
  }

  /** Euclidean division of a natural number by a positive one. */
  lemma RedondeoAcotado(x: nat, y: nat, q: nat)
    requires y > 0 && q == x / y
    ensures q * y <= x < q * y + y
  {
  }

  /** If q·y is below (k)·y then q is below k. */
  lemma CotaCociente(q: nat, k: nat, y: nat)
    requires y > 0
    ensures q * y < k * y ==> q < k
  {
    if q >= k {
      assert q * y == k * y + (q - k) * y;
    }
  }

  /** The guarded percentages of lines 15, 16 and 20: 0 for an empty list. */
  function Porcentaje(a: nat, total: nat): (r: nat)
    ensures total == 0 ==> r == 0
    ensures total > 0 ==> 2 * r * total <= 200 * a + total < 2 * r * total + 2 * total
    ensures a <= total ==> r <= 100
  {
    if total > 0 then Redondeo(a, total) else 0
  }

  const ESTADOS: set<string> := {"Homologado", "Pendiente", "Para_Creacion", "Baja_Confianza"}

  /** The four per-state counts never exceed the total together, and add up to it
      exactly when no product is in any other state. */
  lemma {:induction false} CuentasSuman(ps: seq<Producto>)
    ensures |ConEstado(ps, "Homologado")| + |ConEstado(ps, "Pendiente")|
            + |ConEstado(ps, "Para_Creacion")| + |ConEstado(ps, "Baja_Confianza")| <= |ps|
    ensures (forall i :: 0 <= i < |ps| ==> ps[i].estadoHomologacion in ESTADOS) ==>
              |ConEstado(ps, "Homologado")| + |ConEstado(ps, "Pendiente")|
              + |ConEstado(ps, "Para_Creacion")| + |ConEstado(ps, "Baja_Confianza")| == |ps|
  {
    if |ps| > 0 {
      var cola := ps[1..];
      CuentasSuman(cola);
      ConEstadoPaso(ps, "Homologado");
      ConEstadoPaso(ps, "Pendiente");
      ConEstadoPaso(ps, "Para_Creacion");
      ConEstadoPaso(ps, "Baja_Confianza");
      assert forall i :: 0 <= i < |cola| ==> cola[i] == ps[i + 1];
    }
  }

  /** The figures of the panel. */
  datatype Estadisticas = Estadisticas(
    total: nat, homologados: nat, pendientes: nat, paraCreacion: nat, bajaConfianza: nat,
    porcentajeHomologados: nat, porcentajePendientes: nat, completados: nat, porcentajeProgreso: nat)

  /** The counts, the completed figure and the guarded percentages. */
  function EstadisticasDe(ps: seq<Producto>): (e: Estadisticas)
    ensures e.total == |ps|
    ensures e.homologados == |ConEstado(ps, "Homologado")| && e.pendientes == |ConEstado(ps, "Pendiente")|
            && e.paraCreacion == |ConEstado(ps, "Para_Creacion")| && e.bajaConfianza == |ConEstado(ps, "Baja_Confianza")|
    ensures e.homologados + e.pendientes + e.paraCreacion + e.bajaConfianza <= e.total
    ensures e.completados == e.homologados + e.paraCreacion && e.completados <= e.total
    ensures e.porcentajeHomologados <= 100 && e.porcentajePendientes <= 100 && e.porcentajeProgreso <= 100
    ensures e.total == 0 ==> e.porcentajeHomologados == 0 && e.porcentajePendientes == 0 && e.porcentajeProgreso == 0
    ensures e.total > 0 ==>
              2 * e.porcentajeHomologados * e.total <= 200 * e.homologados + e.total < 2 * e.porcentajeHomologados * e.total + 2 * e.total
    ensures e.total > 0 ==>
              2 * e.porcentajePendientes * e.total <= 200 * e.pendientes + e.total < 2 * e.porcentajePendientes * e.total + 2 * e.total
    ensures e.total > 0 ==>
              2 * e.porcentajeProgreso * e.total <= 200 * e.completados + e.total < 2 * e.porcentajeProgreso * e.total + 2 * e.total
    ensures e.total > 0 && e.completados == e.total ==> e.porcentajeProgreso == 100
  {
    CuentasSuman(ps);
    var total := |ps|;
    var homologados := |ConEstado(ps, "Homologado")|;
    var pendientes := |ConEstado(ps, "Pendiente")|;
    var paraCreacion := |ConEstado(ps, "Para_Creacion")|;
    var bajaConfianza := |ConEstado(ps, "Baja_Confianza")|;
    var completados := homologados + paraCreacion;
    Estadisticas(total, homologados, pendientes, paraCreacion, bajaConfianza,
                 Porcentaje(homologados, total), Porcentaje(pendientes, total), completados,
                 Porcentaje(completados, total))
  }

  /** Confirming a product never lowers the progress count: every product the update
      touches ends 'Homologado', which counts as completed. */
  lemma {:induction false} HomologarNoRetrocede(ps: seq<Producto>, id: int, codigo: string)
    ensures EstadisticasDe(Homologar(ps, id, codigo)).completados >= EstadisticasDe(ps).completados
  {
    ConEstadoMonotono(ps, Homologar(ps, id, codigo));
  }

  /** Pointwise: a list whose products are completed wherever the first list's are has
      at least as many completed products. */
  lemma {:induction false} ConEstadoMonotono(a: seq<Producto>, b: seq<Producto>)
    requires |a| == |b|
    requires forall i :: 0 <= i < |a| ==>
               (a[i].estadoHomologacion in {"Homologado", "Para_Creacion"} ==>
                 b[i].estadoHomologacion in {"Homologado", "Para_Creacion"})
               && (a[i].estadoHomologacion != b[i].estadoHomologacion ==> b[i].estadoHomologacion == "Homologado")
    ensures |ConEstado(b, "Homologado")| + |ConEstado(b, "Para_Creacion")|
            >= |ConEstado(a, "Homologado")| + |ConEstado(a, "Para_Creacion")|
  {
    if |a| > 0 {
      assert forall i :: 0 <= i < |a| - 1 ==> a[1..][i] == a[i + 1] && b[1..][i] == b[i + 1];
      ConEstadoMonotono(a[1..], b[1..]);
      ConEstadoPaso(a, "Homologado");
      ConEstadoPaso(a, "Para_Creacion");
      ConEstadoPaso(b, "Homologado");
      ConEstadoPaso(b, "Para_Creacion");
    }
  }

  // ------------------------------------------------------------- the "Pendientes" card

  /** The card's value: pending and low-confidence products together; with the
      completed ones they never exceed the total. */
  function PendientesTarjeta(ps: seq<Producto>): (r: nat)
    ensures r == EstadisticasDe(ps).pendientes + EstadisticasDe(ps).bajaConfianza
    ensures r + EstadisticasDe(ps).completados <= |ps|
  {
    CuentasSuman(ps);
    |ConEstado(ps, "Pendiente")| + |ConEstado(ps, "Baja_Confianza")|
  }

  /** The card's percentage AS WRITTEN: the guarded pending percentage plus an
      unguarded rounding of the low-confidence share. On an empty list the division is
      0/0, which JavaScript evaluates to NaN (None here). */
  function PorcentajeAccionEscrito(e: Estadisticas): (r: Option<nat>)
    ensures r.None? <==> e.total == 0
  {
    if e.total == 0 then None
    else Some(e.porcentajePendientes + Redondeo(e.bajaConfianza, e.total))
  }

  /** The two defects of that sum: "NaN%" on an empty list, and, because the two
      shares are rounded separately, 101% for the figures of one 'Pendiente' and seven
      'Baja_Confianza' products out of eight. */
  lemma PorcentajeAccionEscritoFalla(x: Producto)
    ensures PorcentajeAccionEscrito(EstadisticasDe([])).None?
    ensures var ps := [x.(estadoHomologacion := "Pendiente")]
                      + seq(7, _ => x.(estadoHomologacion := "Baja_Confianza"));
            PorcentajeAccionEscrito(EstadisticasDe(ps)) == Some(101)
  {
    var bajas := seq(7, _ => x.(estadoHomologacion := "Baja_Confianza"));
    var ps := [x.(estadoHomologacion := "Pendiente")] + bajas;
    assert ps[1..] == bajas;
    TodosEnEstado(bajas, "Baja_Confianza", "Homologado");
    TodosEnEstado(bajas, "Baja_Confianza", "Pendiente");
    TodosEnEstado(bajas, "Baja_Confianza", "Para_Creacion");
    TodosEnEstado(bajas, "Baja_Confianza", "Baja_Confianza");
    var e := EstadisticasDe(ps);
    assert e.total == 8 && e.pendientes == 1 && e.bajaConfianza == 7;
    assert Porcentaje(1, 8) == 13;
    assert Redondeo(7, 8) == 88;
  }

  /** In a list whose products all share one state, that state's filter keeps every
      product and any other state's filter keeps none. */
  lemma {:induction false} TodosEnEstado(ps: seq<Producto>, estado: string, otro: string)
    requires forall i :: 0 <= i < |ps| ==> ps[i].estadoHomologacion == estado
    ensures |ConEstado(ps, otro)| == if otro == estado then |ps| else 0
  {
    if |ps| > 0 {
      TodosEnEstado(ps[1..], estado, otro);
    }
  }

  /** The percentage the card evidently means: one guarded rounding of the products
      that require action. */
  function PorcentajeAccion(ps: seq<Producto>): (r: nat)
    ensures r <= 100
    ensures |ps| == 0 ==> r == 0
    ensures |ps| > 0 ==>
              2 * r * |ps| <= 200 * PendientesTarjeta(ps) + |ps| < 2 * r * |ps| + 2 * |ps|
    ensures |ps| > 0 && PendientesTarjeta(ps) == |ps| ==> r == 100
  {
    Porcentaje(PendientesTarjeta(ps), |ps|)
  }

  // ------------------------------------------------------------- per-client breakdown

  /** One client's tally in the breakdown. */
  datatype Tally = Tally(total: nat, homologados: nat, pendientes: nat, paraCreacion: nat)

  /** A tally adds up: every counted product is in exactly one bucket. */
  predicate Cuadra(t: Tally) {
    t.total == t.homologados + t.paraCreacion + t.pendientes
  }

  /** One product into its client's tally; every state other than 'Homologado' and
      'Para_Creacion' counts as pending. */
  function Sumar(t: Tally, estado: string): (r: Tally)
    ensures r.total == t.total + 1
    ensures Cuadra(t) ==> Cuadra(r)
  {
    if estado == "Homologado" then t.(total := t.total + 1, homologados := t.homologados + 1)
    else if estado == "Para_Creacion" then t.(total := t.total + 1, paraCreacion := t.paraCreacion + 1)
    else t.(total := t.total + 1, pendientes := t.pendientes + 1)
  }

  /** Exactly one counter besides the total rises: the confirmed one for a confirmed
      product, the creation one for a product marked for creation, and the pending one
      for any other state. */
  lemma SumarSube(t: Tally, estado: string)
    ensures var r := Sumar(t, estado);
            && r.total == t.total + 1
            && r.homologados == t.homologados + (if estado == "Homologado" then 1 else 0)
            && r.paraCreacion == t.paraCreacion + (if estado == "Para_Creacion" then 1 else 0)
            && r.pendientes == t.pendientes + (if estado != "Homologado" && estado != "Para_Creacion" then 1 else 0)
  {
  }

  /** The breakdown as `Object.entries` lists it: one entry per client, in order of
      first appearance. */
  type Desglose = seq<(string, Tally)>

  function SumaTotales(d: Desglose): nat {
    if |d| == 0 then 0 else d[0].1.total + SumaTotales(d[1..])
  }

  /** Every entry adds up and counts at least one product, and no client appears
      twice. */
  predicate DesgloseBien(d: Desglose) {
    (forall i :: 0 <= i < |d| ==> Cuadra(d[i].1) && d[i].1.total >= 1)
    && (forall i, j :: 0 <= i < j < |d| ==> d[i].0 != d[j].0)
  }

  /** No entry of the breakdown is for client `k`. */
  predicate Ausente(d: Desglose, k: string) {
    forall i :: 0 <= i < |d| ==> d[i].0 != k
  }

  /** The body of the `reduce`: the product's client gets one more product, a client
      seen for the first time is added at the end. */
  function Agregar(d: Desglose, p: Producto): (r: Desglose)
    ensures SumaTotales(r) == SumaTotales(d) + 1
    ensures forall k :: k != p.cliente && Ausente(d, k) ==> Ausente(r, k)
  {
    if |d| == 0 then [(p.cliente, Sumar(Tally(0, 0, 0, 0), p.estadoHomologacion))]
    else if d[0].0 == p.cliente then
      [(d[0].0, Sumar(d[0].1, p.estadoHomologacion))] + d[1..]
    else
      var resto := Agregar(d[1..], p);
      assert forall k :: Ausente(d, k) ==> Ausente(d[1..], k) && d[0].0 != k;
      assert forall k :: Ausente(resto, k) && d[0].0 != k ==> Ausente([d[0]] + resto, k);
      [d[0]] + resto
  }

  /** `Agregar` keeps a well-formed breakdown well formed. */
  lemma {:induction false} AgregarBien(d: Desglose, p: Producto)
    requires DesgloseBien(d)
    ensures DesgloseBien(Agregar(d, p))
  {
    if |d| > 0 && d[0].0 != p.cliente {
      AgregarBien(d[1..], p);
      var resto := Agregar(d[1..], p);
      assert forall i :: 0 <= i < |d| - 1 ==> d[1..][i].0 != d[0].0;
      assert Ausente(d[1..], d[0].0);
      assert Ausente(resto, d[0].0);
    }
  }

  lemma AgregarBienSi(d: Desglose, p: Producto)
    ensures DesgloseBien(d) ==> DesgloseBien(Agregar(d, p))
  {
    if DesgloseBien(d) {
      AgregarBien(d, p);
    }
  }

  /** The `reduce` itself, a left fold from the given accumulator. */
  function Acumular(d: Desglose, ps: seq<Producto>): (r: Desglose)
    ensures SumaTotales(r) == SumaTotales(d) + |ps|
    ensures DesgloseBien(d) ==> DesgloseBien(r)
    decreases |ps|
  {
    if |ps| == 0 then d
    else
      AgregarBienSi(d, ps[0]);
      Acumular(Agregar(d, ps[0]), ps[1..])
  }

  /** The breakdown of the whole list: its totals add up to the number of products,
      each client appears once, and each
      entry counts exactly that client's products (`DesgloseCuentaPorCliente`). */
  function DesglosePorCliente(ps: seq<Producto>): (r: Desglose)
    ensures SumaTotales(r) == |ps|
    ensures DesgloseBien(r)
  {
    Acumular([], ps)
  }

  /** The breakdown counts, for each client, exactly that client's products in each
      state; its clients are exactly those with at least one product. */
  lemma DesgloseCuentaPorCliente(ps: seq<Producto>)
    ensures var r := DesglosePorCliente(ps);
            && (forall i :: 0 <= i < |r| ==> r[i].1 == TallyDe(DeCliente(ps, r[i].0)))
            && (forall i :: 0 <= i < |r| ==> |DeCliente(ps, r[i].0)| >= 1)
            && (forall j :: 0 <= j < |ps| ==> !Ausente(r, ps[j].cliente))
  {
    var r, vacio: seq<Producto> := DesglosePorCliente(ps), [];
    assert vacio + ps == ps;
    AcumularRefleja([], vacio, ps);
    assert Refleja(r, ps);
    forall i | 0 <= i < |r|
      ensures |DeCliente(ps, r[i].0)| >= 1
    {
      assert r[i].1.total >= 1;
    }
  }

  // ------------------------------------------------------------- the breakdown's reference

  /** The products of one client, in list order. */
  function DeCliente(ps: seq<Producto>, cliente: string): seq<Producto> {
    if |ps| == 0 then []
    else
      var resto := DeCliente(ps[..|ps| - 1], cliente);
      assert ps == ps[..|ps| - 1] + [ps[|ps| - 1]];
      resto + (if ps[|ps| - 1].cliente == cliente then [ps[|ps| - 1]] else [])
  }

  /** The tally of a list, product by product from the first. */
  function TallyDe(ps: seq<Producto>): (t: Tally)
    ensures t.total == |ps| && Cuadra(t)
  {
    if |ps| == 0 then Tally(0, 0, 0, 0)
    else Sumar(TallyDe(ps[..|ps| - 1]), ps[|ps| - 1].estadoHomologacion)
  }

  /** One product more adds to the tally exactly as the `reduce` body does. */
  lemma TallyPaso(ps: seq<Producto>, p: Producto)
    ensures TallyDe(ps + [p]) == Sumar(TallyDe(ps), p.estadoHomologacion)
  {
    assert (ps + [p])[..|ps|] == ps;
  }

  /** The state filter over a list with one more product at its end. */
  lemma {:induction false} ConEstadoFinal(ps: seq<Producto>, p: Producto, estado: string)
    ensures ConEstado(ps + [p], estado) == ConEstado(ps, estado) + (if p.estadoHomologacion == estado then [p] else [])
  {
    if |ps| > 0 {
      assert (ps + [p])[1..] == ps[1..] + [p];
      ConEstadoFinal(ps[1..], p, estado);
    } else {
      assert [] + [p] == [p];
    }
  }

  /** The tally's confirmed counter is the size of the confirmed filter. */
  lemma {:induction false} TallyDeHomologados(ps: seq<Producto>)
    ensures TallyDe(ps).homologados == |ConEstado(ps, "Homologado")|
  {
    if |ps| > 0 {
      var init, p := ps[..|ps| - 1], ps[|ps| - 1];
      assert ps == init + [p];
      TallyDeHomologados(init);
      ConEstadoFinal(init, p, "Homologado");
    }
  }

  /** The tally's creation counter is the size of the creation filter. */
  lemma {:induction false} TallyDeParaCreacion(ps: seq<Producto>)
    ensures TallyDe(ps).paraCreacion == |ConEstado(ps, "Para_Creacion")|
  {
    if |ps| > 0 {
      var init, p := ps[..|ps| - 1], ps[|ps| - 1];
      assert ps == init + [p];
      TallyDeParaCreacion(init);
      ConEstadoFinal(init, p, "Para_Creacion");
    }
  }

  /** The tally counts the products by state: its confirmed and creation counters are
      the sizes of those state filters, and every other product is pending. */
  lemma TallyDeCuenta(ps: seq<Producto>)
    ensures TallyDe(ps).homologados == |ConEstado(ps, "Homologado")|
    ensures TallyDe(ps).paraCreacion == |ConEstado(ps, "Para_Creacion")|
    ensures TallyDe(ps).pendientes == |ps| - |ConEstado(ps, "Homologado")| - |ConEstado(ps, "Para_Creacion")|
  {
    TallyDeHomologados(ps);
    TallyDeParaCreacion(ps);
  }

  /** `d` is the breakdown of the products `q`: each entry holds its client's tally and
      every client of `q` has an entry. */
  predicate Refleja(d: Desglose, q: seq<Producto>) {
    (forall i :: 0 <= i < |d| ==> d[i].1 == TallyDe(DeCliente(q, d[i].0)))
    && Cubre(d, q)
  }

  /** Every client of `q` has an entry in `d`. */
  predicate Cubre(d: Desglose, q: seq<Producto>) {
    forall j :: 0 <= j < |q| ==> !Ausente(d, q[j].cliente)
  }

  /** `Agregar` grows the breakdown by one entry exactly when the client is new. */
  lemma {:induction false} AgregarLongitud(d: Desglose, p: Producto)
    ensures |Agregar(d, p)| == |d| + (if Ausente(d, p.cliente) then 1 else 0)
  {
    if |d| > 0 && d[0].0 != p.cliente {
      AgregarLongitud(d[1..], p);
      assert Ausente(d, p.cliente) <==> Ausente(d[1..], p.cliente);
    } else if |d| > 0 {
      assert d[0].0 == p.cliente;
    }
  }

  /** A new client's entry goes at the end and holds one product. */
  lemma {:induction false} AgregarNuevo(d: Desglose, p: Producto)
    requires Ausente(d, p.cliente)
    ensures |Agregar(d, p)| == |d| + 1
    ensures Agregar(d, p)[|d|] == (p.cliente, Sumar(Tally(0, 0, 0, 0), p.estadoHomologacion))
  {
    if |d| > 0 {
      assert Ausente(d[1..], p.cliente);
      AgregarNuevo(d[1..], p);
    }
  }

  /** Entry `i` of a breakdown with distinct clients keeps its client after `Agregar`;
      its tally gets `Sumar` when it is the product's client and stays otherwise. */
  lemma {:induction false} AgregarEn(d: Desglose, p: Producto, i: nat)
    requires DesgloseBien(d) && i < |d|
    ensures i < |Agregar(d, p)|
    ensures Agregar(d, p)[i] == (d[i].0, if d[i].0 == p.cliente then Sumar(d[i].1, p.estadoHomologacion) else d[i].1)
  {
    AgregarLongitud(d, p);
    if d[0].0 == p.cliente {
      assert i > 0 ==> d[0].0 != d[i].0;
    } else if i > 0 {
      assert DesgloseBien(d[1..]);
      AgregarEn(d[1..], p, i - 1);
    }
  }

  /** The products of one client after one product more. */
  lemma DeClienteFinal(q: seq<Producto>, p: Producto, cliente: string)
    ensures p.cliente == cliente ==> DeCliente(q + [p], cliente) == DeCliente(q, cliente) + [p]
    ensures p.cliente != cliente ==> DeCliente(q + [p], cliente) == DeCliente(q, cliente)
  {
    assert (q + [p])[..|q|] == q;
    assert DeCliente(q, cliente) + [] == DeCliente(q, cliente);
  }

  /** A client no product of `q` names has no products in `q`. */
  lemma {:induction false} SinProductos(q: seq<Producto>, cliente: string)
    requires forall j :: 0 <= j < |q| ==> q[j].cliente != cliente
    ensures DeCliente(q, cliente) == []
  {
    if |q| > 0 {
      SinProductos(q[..|q| - 1], cliente);
    }
  }

  /** A client with no entry in the breakdown of `q` has no products in `q`. */
  lemma SinEntradaSinProductos(d: Desglose, q: seq<Producto>, cliente: string)
    requires Cubre(d, q) && Ausente(d, cliente)
    ensures DeCliente(q, cliente) == []
  {
    forall j | 0 <= j < |q|
      ensures q[j].cliente != cliente
    {
      var i :| 0 <= i < |d| && d[i].0 == q[j].cliente;
      assert d[i].0 != cliente;
    }
    SinProductos(q, cliente);
  }

  /** After `Agregar`, an old entry holds its client's tally over `q + [p]`. */
  lemma EntradaViejaTrasAgregar(d: Desglose, q: seq<Producto>, p: Producto, i: nat)
    requires DesgloseBien(d) && Refleja(d, q) && i < |d|
    ensures i < |Agregar(d, p)|
    ensures Agregar(d, p)[i].1 == TallyDe(DeCliente(q + [p], Agregar(d, p)[i].0))
  {
    AgregarEn(d, p, i);
    var k := d[i].0;
    DeClienteFinal(q, p, k);
    if k == p.cliente {
      TallyPaso(DeCliente(q, k), p);
    }
  }

  /** After `Agregar`, a new entry holds its client's tally over `q + [p]`. */
  lemma EntradaNuevaTrasAgregar(d: Desglose, q: seq<Producto>, p: Producto)
    requires Cubre(d, q) && Ausente(d, p.cliente)
    ensures |d| < |Agregar(d, p)| && Agregar(d, p)[|d|].0 == p.cliente
    ensures Agregar(d, p)[|d|].1 == TallyDe(DeCliente(q + [p], p.cliente))
  {
    AgregarNuevo(d, p);
    assert DeCliente(q + [p], p.cliente) == [p] by {
      SinEntradaSinProductos(d, q, p.cliente);
      DeClienteFinal(q, p, p.cliente);
      assert DeCliente(q, p.cliente) + [p] == [p];
    }
    assert TallyDe([p]) == Sumar(Tally(0, 0, 0, 0), p.estadoHomologacion) by {
      assert [p][..0] == [];
    }
  }

  /** After `Agregar`, every client of `q + [p]` has an entry. */
  lemma ClientesTrasAgregar(d: Desglose, q: seq<Producto>, p: Producto)
    requires DesgloseBien(d) && Cubre(d, q)
    ensures Cubre(Agregar(d, p), q + [p])
  {
    var r := Agregar(d, p);
    forall j | 0 <= j < |q + [p]|
      ensures !Ausente(r, (q + [p])[j].cliente)
    {
      if j < |q| {
        assert !Ausente(d, q[j].cliente);
        var i :| 0 <= i < |d| && d[i].0 == q[j].cliente;
        AgregarEn(d, p, i);
      } else if Ausente(d, p.cliente) {
        AgregarNuevo(d, p);
      } else {
        var i :| 0 <= i < |d| && d[i].0 == p.cliente;
        AgregarEn(d, p, i);
      }
    }
  }

  /** `Agregar` extends the breakdown of `q` to the breakdown of `q + [p]`. */
  lemma AgregarRefleja(d: Desglose, q: seq<Producto>, p: Producto)
    requires DesgloseBien(d) && Refleja(d, q)
    ensures Refleja(Agregar(d, p), q + [p])
  {
    AgregarLongitud(d, p);
    forall i | 0 <= i < |Agregar(d, p)|
      ensures Agregar(d, p)[i].1 == TallyDe(DeCliente(q + [p], Agregar(d, p)[i].0))
    {
      if i < |d| {
        EntradaViejaTrasAgregar(d, q, p, i);
      } else {
        assert i == |d| && Ausente(d, p.cliente);
        EntradaNuevaTrasAgregar(d, q, p);
      }
    }
    ClientesTrasAgregar(d, q, p);
  }

  /** The fold from the breakdown of `q` over `ps` gives the breakdown of `q + ps`. */
  lemma {:induction false} AcumularRefleja(d: Desglose, q: seq<Producto>, ps: seq<Producto>)
    requires DesgloseBien(d) && Refleja(d, q)
    ensures Refleja(Acumular(d, ps), q + ps)
    decreases |ps|
  {
    if |ps| == 0 {
      assert q + ps == q;
    } else {
      var q' := q + [ps[0]];
      assert q' + ps[1..] == q + ps by {
        assert ps == [ps[0]] + ps[1..];
      }
      AgregarBien(d, ps[0]);
      AgregarRefleja(d, q, ps[0]);
      AcumularRefleja(Agregar(d, ps[0]), q', ps[1..]);
    }
  }

  /** A client's "Completado" percentage; its total is never 0, so the division in
      the source is always defined here, and the result is a percentage. */
  function PorcentajeCliente(t: Tally): (r: nat)
    requires t.total >= 1 && Cuadra(t)
    ensures 2 * r * t.total <= 200 * (t.homologados + t.paraCreacion) + t.total < 2 * r * t.total + 2 * t.total
    ensures r <= 100
    ensures t.pendientes == 0 ==> r == 100
  {
    Redondeo(t.homologados + t.paraCreacion, t.total)
  }
}
