/** The products page (`app/productos/page.tsx`): the list filtered by a
    search text and a category, the category list for the filter, and the
    product form with its validation and the record it writes. */
module ProductsPage {
  import opened Common
  import opened JsText
  import opened JsNumber
  import opened Sorting
  import opened Records

  // ---------------------------------------------------------------------------
  // The list filter

  /** The search text occurs, ignoring ASCII case, in the name or in a non-empty
      category. The search text is not trimmed here. */
  predicate CoincideBusqueda(p: Producto, busqueda: string)
  {
    || Contains(Lower(p.nombre), Lower(busqueda))
    || (p.categoria.Some? && p.categoria.value != "" && Contains(Lower(p.categoria.value), Lower(busqueda)))
  }

  /** The category filter is on unless it is empty or "todas". */
  predicate CategoriaActiva(categoriaFiltro: string)
  {
    categoriaFiltro != "" && categoriaFiltro != "todas"
  }

  /** The filter effect: first by the search text when it is not blank, then by the
      exact category when the category filter is on. */
  function FiltrarLista(productos: seq<Producto>, busqueda: string, categoriaFiltro: string): seq<Producto>
  {
    var porBusqueda := if !IsBlank(busqueda) then Filter(productos, EnBusqueda(busqueda)) else productos;
    if CategoriaActiva(categoriaFiltro) then Filter(porBusqueda, EnCategoria(categoriaFiltro)) else porBusqueda
  }

  function EnBusqueda(busqueda: string): Producto -> bool
  {
    (p: Producto) => CoincideBusqueda(p, busqueda)
  }

  function EnCategoria(categoriaFiltro: string): Producto -> bool
  {
    (p: Producto) => p.categoria == Some(categoriaFiltro)
  }

  /** Both conditions hold. */
  function Ambos<T>(a: T -> bool, b: T -> bool): T -> bool
  {
    (x: T) => a(x) && b(x)
  }

  /** Two filters in a row keep what both conditions keep, in order. */
  lemma {:induction false} FilterFilter<T(!new)>(s: seq<T>, a: T -> bool, b: T -> bool)
    ensures Filter(Filter(s, a), b) == Filter(s, Ambos(a, b))
  {
    if s != [] {
      FilterFilter(s[1..], a, b);
      if a(s[0]) {
        assert Filter(s, a) == [s[0]] + Filter(s[1..], a);
        assert ([s[0]] + Filter(s[1..], a))[1..] == Filter(s[1..], a);
      }
    }
  }

  /** What the filter keeps: a product stays exactly when it matches a non-blank search
      and the active category; the list keeps the catalogue's order. */
  lemma FiltrarListaSpec(productos: seq<Producto>, busqueda: string, categoriaFiltro: string)
    ensures var r := FiltrarLista(productos, busqueda, categoriaFiltro);
      && SubsequenceOf(r, productos)
      && forall p :: p in r <==>
           && p in productos
           && (IsBlank(busqueda) || CoincideBusqueda(p, busqueda))
           && (!CategoriaActiva(categoriaFiltro) || p.categoria == Some(categoriaFiltro))
  {
    if !IsBlank(busqueda) && CategoriaActiva(categoriaFiltro) {
      var a, b := EnBusqueda(busqueda), EnCategoria(categoriaFiltro);
      FilterFilter(productos, a, b);
      assert SubsequenceOf(Filter(productos, Ambos(a, b)), productos);
    }
    SubsequenceOfSelf(productos);
  }

  /** With no search text and no category, every product is listed. */
  lemma SinFiltros(productos: seq<Producto>)
    ensures FiltrarLista(productos, "", "") == productos
    ensures FiltrarLista(productos, "", "todas") == productos
  {
    assert IsBlank("") by { TrimSpec(""); }
  }

  // ---------------------------------------------------------------------------
  // The categories of the filter

  /** The categories of the products in catalogue order, without absent or blank ones. */
  function CategoriasPresentes(productos: seq<Producto>): (r: seq<string>)
    ensures forall c :: c in r <==> exists p :: p in productos && p.categoria == Some(c) && !IsBlank(c)
  {
    if productos == [] then []
    else
      var resto := CategoriasPresentes(productos[..|productos| - 1]);
      var p := productos[|productos| - 1];
      assert forall q :: q in productos <==> q in productos[..|productos| - 1] || q == p;
      if p.categoria.Some? && !IsBlank(p.categoria.value) then resto + [p.categoria.value] else resto
  }

  predicate SinDuplicados<T(==)>(s: seq<T>)
  {
    forall i, j :: 0 <= i < j < |s| ==> s[i] != s[j]
  }

  /** `filter((x, i, arr) => arr.indexOf(x) === i)`: keeps each value where it first occurs. */
  function PrimerasApariciones<T(==, !new)>(s: seq<T>): (r: seq<T>)
    ensures SinDuplicados(r)
    ensures forall x :: x in r <==> x in s
  {
    if s == [] then []
    else
      var init := s[..|s| - 1];
      var d := PrimerasApariciones(init);
      assert forall x :: x in s <==> x in init || x == s[|s| - 1];
      if s[|s| - 1] in init then d else d + [s[|s| - 1]]
  }

  /** The order of the default `sort()` on strings. */
  function OrdenTexto(): (string, string) -> bool
  {
    (a: string, b: string) => LexLe(a, b)
  }

  lemma OrdenTextoEsPreorden()
    ensures IsTotalPreorder(OrdenTexto())
  {
    forall a: string, b: string
      ensures LexLe(a, b) || LexLe(b, a)
    {
      LexLeTotal(a, b);
    }
    forall a: string, b: string, c: string | LexLe(a, b) && LexLe(b, c)
      ensures LexLe(a, c)
    {
      LexLeTransitive(a, b, c);
    }
  }

  /** `obtenerCategorias`. */
  function ObtenerCategorias(productos: seq<Producto>): seq<string>
  {
    SortBy(PrimerasApariciones(CategoriasPresentes(productos)), OrdenTexto())
  }

  /** A sequence has no repeats exactly when each value occurs in it at most once. */
  lemma {:induction false} SinDuplicadosMultiset<T>(s: seq<T>)
    ensures SinDuplicados(s) <==> forall x :: multiset(s)[x] <= 1
  {
    if s != [] {
      var init := s[..|s| - 1];
      var l := s[|s| - 1];
      assert s == init + [l];
      assert multiset(s) == multiset(init) + multiset{l};
      SinDuplicadosMultiset(init);
      if SinDuplicados(s) {
        assert l !in init by {
          assert forall j :: 0 <= j < |init| ==> init[j] == s[j] && s[j] != s[|s| - 1];
        }
        assert SinDuplicados(init) by {
          forall i, j | 0 <= i < j < |init|
            ensures init[i] != init[j]
          {
            assert init[i] == s[i] && init[j] == s[j];
          }
        }
      }
      if forall x :: multiset(s)[x] <= 1 {
        assert forall x :: multiset(init)[x] <= multiset(s)[x];
        assert l !in multiset(init) by {
          assert multiset(s)[l] == multiset(init)[l] + 1;
        }
        forall i, j | 0 <= i < j < |s|
          ensures s[i] != s[j]
        {
          if j < |s| - 1 {
            assert s[i] == init[i] && s[j] == init[j];
          } else {
            assert s[i] in init;
          }
        }
      }
    }
  }

  /** The categories offered are in order, each once, and exactly the non-blank
      categories some product has. */
  lemma ObtenerCategoriasSpec(productos: seq<Producto>)
    ensures var r := ObtenerCategorias(productos);
      && SortedBy(r, OrdenTexto())
      && SinDuplicados(r)
      && forall c :: c in r <==> exists p :: p in productos && p.categoria == Some(c) && !IsBlank(c)
  {
    var d := PrimerasApariciones(CategoriasPresentes(productos));
    var r := ObtenerCategorias(productos);
    OrdenTextoEsPreorden();
    SortBySorted(d, OrdenTexto());
    SinDuplicadosMultiset(d);
    SinDuplicadosMultiset(r);
    assert forall c :: c in r <==> c in multiset(d);
  }

  /** Sorted and without repeats, the categories are strictly increasing. */
  lemma CategoriasCrecientes(productos: seq<Producto>)
    ensures var r := ObtenerCategorias(productos);
      forall i, j :: 0 <= i < j < |r| ==> LexLe(r[i], r[j]) && !LexLe(r[j], r[i])
  {
    var r := ObtenerCategorias(productos);
    ObtenerCategoriasSpec(productos);
    forall i, j | 0 <= i < j < |r|
      ensures LexLe(r[i], r[j]) && !LexLe(r[j], r[i])
    {
      assert OrdenTexto()(r[i], r[j]);
      if LexLe(r[j], r[i]) {
        LexLeAntisymmetric(r[i], r[j]);
      }
    }
  }

  // ---------------------------------------------------------------------------
  // The product form

  /** The fields `guardarProducto` writes. */
  datatype DatosProducto = DatosProducto(
    nombre: string,
    precioMinorista: real,
    precioMayorista: real,
    stock: int,
    categoria: Option<string>)

  datatype ErrorProducto = NombreRequerido | PrecioMinoristaInvalido | PrecioMayoristaInvalido

  /** A price field reads as a number greater than 0. */
  predicate PrecioValido(texto: string)
  {
    ParseFloat(texto).Some? && ParseFloat(texto).value > 0.0
  }

  /** `categoria.trim() || null`: the trimmed text, or null when it is blank. */
  function CategoriaGuardada(categoria: string): (r: Option<string>)
    ensures r.None? <==> IsBlank(categoria)
    ensures r.Some? ==> r.value == Trim(categoria) && !IsBlank(r.value)
  {
    var t := Trim(categoria);
    TrimTrim(categoria);
    if t == [] then None else Some(t)
  }

  /** Trimming twice is trimming once. */
  lemma TrimTrim(s: string)
    ensures Trim(Trim(s)) == Trim(s)
  {
    var t := Trim(s);
    TrimSpec(s);
    TrimStartSpec(t);
    if t != [] {
      assert TrimStart(t) == t;
      TrimEndSpec(t);
      assert TrimEnd(t) == t;
    }
  }

  /** The checks of `guardarProducto` in their order, then the record it writes: the
      name trimmed, the prices as read, the stock read as an integer with 0 for text
      that does not read as one, and the category trimmed or null. */
  function Validar(nombre: string, precioMinorista: string, precioMayorista: string, stock: string, categoria: string)
    : (r: Result<DatosProducto, ErrorProducto>)
    ensures r == Failure(NombreRequerido) <==> IsBlank(nombre)
    ensures r == Failure(PrecioMinoristaInvalido) <==> !IsBlank(nombre) && !PrecioValido(precioMinorista)
    ensures r == Failure(PrecioMayoristaInvalido) <==>
      !IsBlank(nombre) && PrecioValido(precioMinorista) && !PrecioValido(precioMayorista)
    ensures r.Success? ==>
      && !IsBlank(r.value.nombre) && r.value.nombre == Trim(nombre)
      && Some(r.value.precioMinorista) == ParseFloat(precioMinorista) && r.value.precioMinorista > 0.0
      && Some(r.value.precioMayorista) == ParseFloat(precioMayorista) && r.value.precioMayorista > 0.0
      && r.value.stock == ParseIntOr(stock, 0)
      && r.value.categoria == CategoriaGuardada(categoria)
  {
    if IsBlank(nombre) then Failure(NombreRequerido)
    else if !PrecioValido(precioMinorista) then Failure(PrecioMinoristaInvalido)
    else if !PrecioValido(precioMayorista) then Failure(PrecioMayoristaInvalido)
    else
      TrimTrim(nombre);
      Success(DatosProducto(
        Trim(nombre),
        ParseFloat(precioMinorista).value,
        ParseFloat(precioMayorista).value,
        ParseIntOr(stock, 0),
        CategoriaGuardada(categoria)))
  }

  /** The values of a product as the form stores them. */
  function DatosDe(p: Producto): DatosProducto
  {
    DatosProducto(p.nombre, p.precioMinorista, p.precioMayorista, p.stock, p.categoria)
  }

  /** A product whose name and category are already trimmed and whose prices are whole
      and positive: opening it for editing and saving unchanged writes back the same
      values. */
  lemma EditarSinCambios(p: Producto, min: int, may: int)
    requires p.nombre != [] && Trim(p.nombre) == p.nombre
    requires p.precioMinorista == min as real && min > 0
    requires p.precioMayorista == may as real && may > 0
    requires p.categoria.Some? ==> p.categoria.value != [] && Trim(p.categoria.value) == p.categoria.value
    ensures Validar(p.nombre, NumberText(p.precioMinorista), NumberText(p.precioMayorista),
      IntToString(p.stock), if p.categoria.Some? then p.categoria.value else "") == Success(DatosDe(p))
  {
    NumberTextOfInt(min);
    NumberTextOfInt(may);
    ParseFloatOfIntToString(min);
    ParseFloatOfIntToString(may);
    ParseIntOfIntToString(p.stock);
    assert Trim("") == [];
  }

  /** The low-stock warning shows at 5 units or fewer. */
  predicate StockBajo(p: Producto)
  {
    p.stock <= 5
  }

  /** A product saved with a stock field that does not read as a number is stored with
      stock 0 and so shows the low-stock warning. */
  lemma StockIlegibleEsBajo(id: int, nombre: string, min: string, may: string, stock: string, categoria: string)
    requires forall i :: 0 <= i < |stock| ==> !('0' <= stock[i] <= '9')
    requires Validar(nombre, min, may, stock, categoria).Success?
    ensures var d := Validar(nombre, min, may, stock, categoria).value;
      d.stock == 0 && StockBajo(Producto(id, d.nombre, d.precioMinorista, d.precioMayorista, d.stock, d.categoria, None))
  {
    ParseIntWithoutDigits(stock);
  }

  /** The row an update writes: the form's fields, the code kept. */
  function Actualizado(p: Producto, d: DatosProducto): Producto
  {
    p.(nombre := d.nombre, precioMinorista := d.precioMinorista, precioMayorista := d.precioMayorista,
       stock := d.stock, categoria := d.categoria)
  }

  /** The row an insert writes under the id the database gives it. */
  function Nuevo(id: int, d: DatosProducto): Producto
  {
    Producto(id, d.nombre, d.precioMinorista, d.precioMayorista, d.stock, d.categoria, None)
  }

  datatype ResultadoGuardar = Invalido(error: ErrorProducto) | FalloEscritura | Guardado

  class ProductosPage {
    var productos: seq<Producto>
    var busqueda: string
    var categoriaFiltro: string
    var productosFiltrados: seq<Producto>
    var productoEditando: Option<Producto>
    var dialogAbierto: bool
    var nombre: string
    var precioMinorista: string
    var precioMayorista: string
    var stock: string
    var categoria: string
    const db: Database

    /** The filter effect has run on the current list, search and category. */
    predicate Valid()
      reads this
    {
      productosFiltrados == FiltrarLista(productos, busqueda, categoriaFiltro)
    }

    constructor (db: Database)
      ensures Valid()
      ensures this.db == db && productos == [] && busqueda == "" && categoriaFiltro == ""
      ensures productoEditando.None? && !dialogAbierto
      ensures nombre == "" && precioMinorista == "" && precioMayorista == "" && stock == "" && categoria == ""
    {
      this.db := db;
      productos := [];
      busqueda := "";
      categoriaFiltro := "";
      productosFiltrados := [];
      productoEditando := None;
      dialogAbierto := false;
      nombre := "";
      precioMinorista := "";
      precioMayorista := "";
      stock := "";
      categoria := "";
    }

    /** The filter effect on `[productos, busqueda, categoriaFiltro]`. */
    method Filtrar()
      modifies this
      ensures Valid()
      ensures productos == old(productos) && busqueda == old(busqueda) && categoriaFiltro == old(categoriaFiltro)
      ensures productoEditando == old(productoEditando) && dialogAbierto == old(dialogAbierto)
      ensures nombre == old(nombre) && precioMinorista == old(precioMinorista)
      ensures precioMayorista == old(precioMayorista) && stock == old(stock) && categoria == old(categoria)
    {
      var resultados := productos;
      if !IsBlank(busqueda) {
        resultados := Filter(resultados, EnBusqueda(busqueda));
      }
      if CategoriaActiva(categoriaFiltro) {
        resultados := Filter(resultados, EnCategoria(categoriaFiltro));
      }
      productosFiltrados := resultados;
    }

    method CargarProductos(ps: seq<Producto>)
      modifies this
      ensures Valid()
      ensures productos == ps && busqueda == old(busqueda) && categoriaFiltro == old(categoriaFiltro)
      ensures productoEditando == old(productoEditando) && dialogAbierto == old(dialogAbierto)
    {
      productos := ps;
      Filtrar();
    }

    method SetBusqueda(b: string)
      modifies this
      ensures Valid()
      ensures busqueda == b && productos == old(productos) && categoriaFiltro == old(categoriaFiltro)
      ensures productoEditando == old(productoEditando) && dialogAbierto == old(dialogAbierto)
    {
      busqueda := b;
      Filtrar();
    }

    method SetCategoriaFiltro(c: string)
      modifies this
      ensures Valid()
      ensures categoriaFiltro == c && productos == old(productos) && busqueda == old(busqueda)
      ensures productoEditando == old(productoEditando) && dialogAbierto == old(dialogAbierto)
    {
      categoriaFiltro := c;
      Filtrar();
    }

    /** `limpiarFiltros`: the whole catalogue is listed again. */
    method LimpiarFiltros()
      modifies this
      ensures Valid()
      ensures busqueda == "" && categoriaFiltro == "" && productos == old(productos)
      ensures productosFiltrados == productos
    {
      busqueda := "";
      categoriaFiltro := "";
      Filtrar();
      SinFiltros(productos);
    }

    /** Puts values into the form's fields, leaving the list and the dialog alone. */
    method Llenar(editando: Option<Producto>, n: string, min: string, may: string, st: string, cat: string)
      modifies this
      requires Valid()
      ensures Valid()
      ensures nombre == n && precioMinorista == min && precioMayorista == may && stock == st && categoria == cat
      ensures productoEditando == editando && dialogAbierto == old(dialogAbierto)
      ensures productos == old(productos) && busqueda == old(busqueda) && categoriaFiltro == old(categoriaFiltro)
      ensures productosFiltrados == old(productosFiltrados)
    {
      nombre, precioMinorista, precioMayorista, stock, categoria := n, min, may, st, cat;
      productoEditando := editando;
    }

    /** `limpiarFormulario`. */
    method LimpiarFormulario()
      modifies this
      requires Valid()
      ensures Valid()
      ensures nombre == "" && precioMinorista == "" && precioMayorista == "" && stock == "" && categoria == ""
      ensures productoEditando.None? && dialogAbierto == old(dialogAbierto)
      ensures productos == old(productos) && busqueda == old(busqueda) && categoriaFiltro == old(categoriaFiltro)
      ensures productosFiltrados == old(productosFiltrados)
    {
      Llenar(None, "", "", "", "", "");
    }

    /** `abrirDialogoNuevo`: an empty form. */
    method AbrirDialogoNuevo()
      modifies this
      requires Valid()
      ensures Valid()
      ensures nombre == "" && precioMinorista == "" && precioMayorista == "" && stock == "" && categoria == ""
      ensures productoEditando.None? && dialogAbierto
      ensures productos == old(productos) && busqueda == old(busqueda) && categoriaFiltro == old(categoriaFiltro)
    {
      LimpiarFormulario();
      dialogAbierto := true;
    }

    /** `abrirDialogoEditar`: the form holds the product's values as text. */
    method AbrirDialogoEditar(p: Producto)
      modifies this
      requires Valid()
      ensures Valid()
      ensures productoEditando == Some(p) && dialogAbierto && nombre == p.nombre
      ensures precioMinorista == NumberText(p.precioMinorista) && precioMayorista == NumberText(p.precioMayorista)
      ensures stock == IntToString(p.stock)
      ensures categoria == if p.categoria.Some? then p.categoria.value else ""
      ensures productos == old(productos) && busqueda == old(busqueda) && categoriaFiltro == old(categoriaFiltro)
    {
      var minorista, mayorista := NumberText(p.precioMinorista), NumberText(p.precioMayorista);
      var cantidad := IntToString(p.stock);
      var cat := if p.categoria.Some? then p.categoria.value else "";
      Llenar(Some(p), p.nombre, minorista, mayorista, cantidad, cat);
      dialogAbierto := true;
    }

    /** The database call of `guardarProducto`: an update of the product being edited
        (a no-op when its row is gone) or an insert under `nuevoId`. */
    method Escribir(d: DatosProducto, nuevoId: int, escrituraOk: bool)
      modifies db
      requires productoEditando.None? ==> nuevoId !in db.productos
      ensures !escrituraOk ==> db.productos == old(db.productos)
      ensures escrituraOk && productoEditando.Some? ==>
        db.productos == (if productoEditando.value.id in old(db.productos)
          then old(db.productos)[productoEditando.value.id := Actualizado(old(db.productos)[productoEditando.value.id], d)]
          else old(db.productos))
      ensures escrituraOk && productoEditando.None? ==> db.productos == old(db.productos)[nuevoId := Nuevo(nuevoId, d)]
      ensures db.pedidos == old(db.pedidos) && db.pedidoItems == old(db.pedidoItems)
      ensures db.ventas == old(db.ventas) && db.clientes == old(db.clientes)
    {
      if !escrituraOk {
        return;
      }
      if productoEditando.Some? {
        var id := productoEditando.value.id;
        if id in db.productos {
          db.productos := db.productos[id := Actualizado(db.productos[id], d)];
        }
      } else {
        db.productos := db.productos[nuevoId := Nuevo(nuevoId, d)];
      }
    }

    /** `guardarProducto`: the first failing check is reported and nothing is written; a
        failed write is reported and the form stays open; a successful write closes the
        dialog and clears the form. `nuevoId` is the id the database gives an insert. */
    method GuardarProducto(nuevoId: int, escrituraOk: bool) returns (res: ResultadoGuardar)
      modifies this, db
      requires Valid()
      requires productoEditando.None? ==> nuevoId !in db.productos
      ensures Valid()
      ensures var v := Validar(old(nombre), old(precioMinorista), old(precioMayorista), old(stock), old(categoria));
        && (v.Failure? ==> res == Invalido(v.error) && unchanged(this) && unchanged(db))
        && (v.Success? && !escrituraOk ==> res == FalloEscritura && unchanged(this) && unchanged(db))
        && (v.Success? && escrituraOk ==>
              && res == Guardado
              && !dialogAbierto && productoEditando.None?
              && nombre == "" && precioMinorista == "" && precioMayorista == "" && stock == "" && categoria == ""
              && (old(productoEditando).Some? ==>
                    var id := old(productoEditando).value.id;
                    db.productos == if id in old(db.productos)
                      then old(db.productos)[id := Actualizado(old(db.productos)[id], v.value)]
                      else old(db.productos))
              && (old(productoEditando).None? ==> db.productos == old(db.productos)[nuevoId := Nuevo(nuevoId, v.value)]))
      ensures productos == old(productos) && busqueda == old(busqueda) && categoriaFiltro == old(categoriaFiltro)
      ensures db.pedidos == old(db.pedidos) && db.pedidoItems == old(db.pedidoItems)
      ensures db.ventas == old(db.ventas) && db.clientes == old(db.clientes)
    {
      var v := Validar(nombre, precioMinorista, precioMayorista, stock, categoria);
      if v.Failure? {
        return Invalido(v.error);
      }
      if !escrituraOk {
        return FalloEscritura;
      }
      Escribir(v.value, nuevoId, escrituraOk);
      dialogAbierto := false;
      LimpiarFormulario();
      res := Guardado;
    }
  }
}
