/** The search box with a quantity field (`components/product-search-with-quantity.tsx`):
    the same suggestions as the plain box, but choosing a suggestion puts the
    product's name in the box and opens a quantity field; Enter there hands the
    product and the quantity to the caller and clears everything. */
module ProductSearchQty {
  import opened Common
  import opened JsNumber
  import opened Records
  import opened ProductFilter

  /** `Number.parseInt(cantidad) || 1`: text that does not read as an integer, and "0",
      count as 1. */
  function CantidadPedida(texto: string): int
  {
    ParseIntOr(texto, 1)
  }

  /** The quantity typed as an integer's text is that integer, except 0, which counts as
      1; text without a digit counts as 1; so a negative quantity is the only one that
      is refused. */
  lemma CantidadPedidaSpec(n: int, texto: string)
    ensures n != 0 ==> CantidadPedida(IntToString(n)) == n
    ensures CantidadPedida(IntToString(0)) == 1
    ensures (forall i :: 0 <= i < |texto| ==> !('0' <= texto[i] <= '9')) ==> CantidadPedida(texto) == 1
  {
    ParseIntOfIntToString(n);
    ParseIntOfIntToString(0);
    if forall i :: 0 <= i < |texto| ==> !('0' <= texto[i] <= '9') {
      ParseIntWithoutDigits(texto);
    }
  }

  /** The box's invariant on its values. Unlike the plain box, a non-empty list is
      always the filter's answer for the current query, but a long query may have an
      empty list: choosing a product whose name is already the query clears the list
      and the effect does not run again. */
  predicate Coherente(query: string, productos: seq<Producto>, sugerencias: seq<Producto>, mostrar: bool, idx: int)
  {
    && -1 <= idx
    && (sugerencias != [] ==> idx < |sugerencias| && sugerencias == FiltrarProductos(productos, query))
    && (!ConsultaLarga(query) ==> sugerencias == [] && !mostrar)
  }

  lemma EfectoCoherente(query: string, productos: seq<Producto>, idx: int)
    requires -1 <= idx
    ensures ConsultaLarga(query) ==> Coherente(query, productos, FiltrarProductos(productos, query), true, -1)
    ensures !ConsultaLarga(query) ==> Coherente(query, productos, [], false, idx)
  {
  }

  lemma MostrarCoherente(query: string, productos: seq<Producto>, sugerencias: seq<Producto>, mostrar: bool, idx: int)
    requires Coherente(query, productos, sugerencias, mostrar, idx)
    ensures ConsultaLarga(query) ==> Coherente(query, productos, sugerencias, true, idx)
    ensures Coherente(query, productos, sugerencias, false, idx)
    ensures Coherente(query, productos, sugerencias, false, -1)
    ensures sugerencias != [] ==> Coherente(query, productos, sugerencias, mostrar, Bajar(idx, |sugerencias|))
    ensures Coherente(query, productos, sugerencias, mostrar, Subir(idx))
    ensures Coherente(query, productos, [], false, -1)
  {
  }

  class ProductSearchWithQuantity {
    var query: string
    var cantidad: string
    var productos: seq<Producto>
    var sugerencias: seq<Producto>
    var mostrarSugerencias: bool
    var selectedIndex: int
    var productoSeleccionado: Option<Producto>
    var mostrarCantidad: bool
    /** The calls made to `onProductAdd`, oldest first. */
    var agregados: seq<(Producto, int)>

    /** The suggestions are coherent, and the quantity field is open exactly while a
        product is chosen. */
    predicate Valid()
      reads this
    {
      && Coherente(query, productos, sugerencias, mostrarSugerencias, selectedIndex)
      && (mostrarCantidad <==> productoSeleccionado.Some?)
    }

    constructor ()
      ensures Valid()
      ensures query == "" && cantidad == "1" && productos == [] && sugerencias == []
      ensures !mostrarSugerencias && selectedIndex == -1
      ensures productoSeleccionado.None? && !mostrarCantidad && agregados == []
    {
      query := "";
      cantidad := "1";
      productos := [];
      sugerencias := [];
      mostrarSugerencias := false;
      selectedIndex := -1;
      productoSeleccionado := None;
      mostrarCantidad := false;
      agregados := [];
    }

    /** The effect on `[query, productos]`. */
    method AlCambiarConsulta()
      modifies this
      requires -1 <= selectedIndex && (mostrarCantidad <==> productoSeleccionado.Some?)
      ensures Valid()
      ensures query == old(query) && productos == old(productos) && cantidad == old(cantidad)
      ensures productoSeleccionado == old(productoSeleccionado) && mostrarCantidad == old(mostrarCantidad)
      ensures agregados == old(agregados)
      ensures ConsultaLarga(query) ==>
        sugerencias == FiltrarProductos(productos, query) && mostrarSugerencias && selectedIndex == -1
      ensures !ConsultaLarga(query) ==>
        sugerencias == [] && !mostrarSugerencias && selectedIndex == old(selectedIndex)
    {
      EfectoCoherente(query, productos, selectedIndex);
      if ConsultaLarga(query) {
        sugerencias := FiltrarProductos(productos, query);
        mostrarSugerencias := true;
        selectedIndex := -1;
      } else {
        sugerencias := [];
        mostrarSugerencias := false;
      }
    }

    /** Typing in the search box, which is disabled while the quantity field is open. */
    method SetQuery(q: string)
      modifies this
      requires Valid()
      ensures Valid()
      ensures mostrarCantidad == old(mostrarCantidad) && productoSeleccionado == old(productoSeleccionado)
      ensures productos == old(productos) && cantidad == old(cantidad) && agregados == old(agregados)
      ensures old(mostrarCantidad) || q == old(query) ==> unchanged(this)
      ensures !old(mostrarCantidad) ==> query == q
    {
      if !mostrarCantidad && q != query {
        query := q;
        AlCambiarConsulta();
      }
    }

    method SetCantidad(texto: string)
      modifies this
      requires Valid()
      ensures Valid()
      ensures cantidad == texto
      ensures query == old(query) && productos == old(productos) && sugerencias == old(sugerencias)
      ensures mostrarSugerencias == old(mostrarSugerencias) && selectedIndex == old(selectedIndex)
      ensures productoSeleccionado == old(productoSeleccionado) && mostrarCantidad == old(mostrarCantidad)
      ensures agregados == old(agregados)
    {
      cantidad := texto;
    }

    /** The catalogue arrives (a new list, so the effect runs). */
    method CargarProductos(ps: seq<Producto>)
      modifies this
      requires Valid()
      ensures Valid()
      ensures productos == ps && query == old(query) && cantidad == old(cantidad)
      ensures productoSeleccionado == old(productoSeleccionado) && agregados == old(agregados)
    {
      productos := ps;
      AlCambiarConsulta();
    }

    /** Focus shows the list again for a long enough query. */
    method Enfocar()
      modifies this
      requires Valid()
      ensures Valid()
      ensures mostrarSugerencias == (old(mostrarSugerencias) || ConsultaLarga(query))
      ensures query == old(query) && sugerencias == old(sugerencias) && selectedIndex == old(selectedIndex)
      ensures productos == old(productos) && cantidad == old(cantidad) && agregados == old(agregados)
      ensures productoSeleccionado == old(productoSeleccionado) && mostrarCantidad == old(mostrarCantidad)
    {
      MostrarCoherente(query, productos, sugerencias, mostrarSugerencias, selectedIndex);
      if ConsultaLarga(query) {
        mostrarSugerencias := true;
      }
    }

    /** Leaving the box hides the list (after a delay that is not modelled). */
    method Desenfocar()
      modifies this
      requires Valid()
      ensures Valid()
      ensures !mostrarSugerencias
      ensures query == old(query) && sugerencias == old(sugerencias) && selectedIndex == old(selectedIndex)
      ensures productos == old(productos) && cantidad == old(cantidad) && agregados == old(agregados)
      ensures productoSeleccionado == old(productoSeleccionado) && mostrarCantidad == old(mostrarCantidad)
    {
      MostrarCoherente(query, productos, sugerencias, mostrarSugerencias, selectedIndex);
      mostrarSugerencias := false;
    }

    /** `seleccionarProducto`: remembers `p`, opens the quantity field and writes the
        product's name into the box. When the name differs from the query the effect
        runs on it, so a name of two or more characters brings the suggestions back. */
    method SeleccionarProducto(p: Producto)
      modifies this
      requires Valid()
      ensures Valid()
      ensures productoSeleccionado == Some(p) && mostrarCantidad && query == p.nombre
      ensures productos == old(productos) && cantidad == old(cantidad) && agregados == old(agregados)
      ensures p.nombre != old(query) && ConsultaLarga(p.nombre) ==>
        sugerencias == FiltrarProductos(productos, p.nombre) && mostrarSugerencias && selectedIndex == -1
      ensures p.nombre == old(query) || !ConsultaLarga(p.nombre) ==>
        sugerencias == [] && !mostrarSugerencias && selectedIndex == -1
    {
      var cambio := query != p.nombre;
      Elegir(p);
      if cambio {
        AlCambiarConsulta();
      }
    }

    /** The state updates of `seleccionarProducto`, before the effect. */
    method Elegir(p: Producto)
      modifies this
      ensures Valid()
      ensures productoSeleccionado == Some(p) && mostrarCantidad && query == p.nombre
      ensures sugerencias == [] && !mostrarSugerencias && selectedIndex == -1
      ensures productos == old(productos) && cantidad == old(cantidad) && agregados == old(agregados)
    {
      productoSeleccionado := Some(p);
      query := p.nombre;
      sugerencias := [];
      mostrarSugerencias := false;
      selectedIndex := -1;
      mostrarCantidad := true;
    }

    /** Clears the query, the quantity and the choice, and closes the quantity field. */
    method Reiniciar()
      modifies this
      requires Valid()
      ensures Valid()
      ensures query == "" && cantidad == "1" && productoSeleccionado.None? && !mostrarCantidad
      ensures sugerencias == [] && !mostrarSugerencias && selectedIndex == old(selectedIndex)
      ensures productos == old(productos) && agregados == old(agregados)
    {
      var cambio := query != "";
      query := "";
      cantidad := "1";
      productoSeleccionado := None;
      mostrarCantidad := false;
      if cambio {
        AlCambiarConsulta();
      }
    }

    /** `agregarProducto`: with a chosen product and a quantity that is not negative
        (see `CantidadPedida`), hands both to the caller and clears the form; otherwise
        does nothing. */
    method AgregarProducto()
      modifies this
      requires Valid()
      ensures Valid()
      ensures old(productoSeleccionado).None? || CantidadPedida(old(cantidad)) <= 0 ==> unchanged(this)
      ensures old(productoSeleccionado).Some? && CantidadPedida(old(cantidad)) > 0 ==>
        && agregados == old(agregados) + [(old(productoSeleccionado).value, CantidadPedida(old(cantidad)))]
        && query == "" && cantidad == "1" && productoSeleccionado.None? && !mostrarCantidad
        && sugerencias == [] && !mostrarSugerencias && selectedIndex == old(selectedIndex)
        && productos == old(productos)
    {
      if productoSeleccionado.None? {
        return;
      }
      var n := CantidadPedida(cantidad);
      if n <= 0 {
        return;
      }
      agregados := agregados + [(productoSeleccionado.value, n)];
      Reiniciar();
    }

    /** `cancelarSeleccion`: clears the form without calling the caller. */
    method CancelarSeleccion()
      modifies this
      requires Valid()
      ensures Valid()
      ensures query == "" && cantidad == "1" && productoSeleccionado.None? && !mostrarCantidad
      ensures sugerencias == [] && !mostrarSugerencias && selectedIndex == old(selectedIndex)
      ensures productos == old(productos) && agregados == old(agregados)
    {
      Reiniciar();
    }

    /** `manejarTecladoBusqueda`: keys act only while a non-empty list is shown (and the
        search box is enabled, that is, the quantity field is closed). */
    method ManejarTecladoBusqueda(k: Tecla)
      modifies this
      requires Valid()
      ensures Valid()
      ensures productos == old(productos) && cantidad == old(cantidad) && agregados == old(agregados)
      ensures old(mostrarCantidad) || !old(mostrarSugerencias) || old(sugerencias) == [] ==> unchanged(this)
      ensures !old(mostrarCantidad) && old(mostrarSugerencias) && old(sugerencias) != [] ==>
        match k
        case ArrowDown =>
          selectedIndex == Bajar(old(selectedIndex), |old(sugerencias)|)
          && query == old(query) && sugerencias == old(sugerencias) && mostrarSugerencias
          && productoSeleccionado == old(productoSeleccionado)
        case ArrowUp =>
          selectedIndex == Subir(old(selectedIndex))
          && query == old(query) && sugerencias == old(sugerencias) && mostrarSugerencias
          && productoSeleccionado == old(productoSeleccionado)
        case Enter =>
          if 0 <= old(selectedIndex) < |old(sugerencias)| then
            var p := old(sugerencias)[old(selectedIndex)];
            && productoSeleccionado == Some(p) && mostrarCantidad && query == p.nombre
            && (p.nombre != old(query) && ConsultaLarga(p.nombre) ==>
                  sugerencias == FiltrarProductos(productos, p.nombre) && mostrarSugerencias && selectedIndex == -1)
            && (p.nombre == old(query) || !ConsultaLarga(p.nombre) ==>
                  sugerencias == [] && !mostrarSugerencias && selectedIndex == -1)
          else unchanged(this)
        case Escape =>
          !mostrarSugerencias && selectedIndex == -1
          && query == old(query) && sugerencias == old(sugerencias)
          && productoSeleccionado == old(productoSeleccionado)
        case OtraTecla => unchanged(this)
    {
      if mostrarCantidad || !mostrarSugerencias || sugerencias == [] {
        return;
      }
      MostrarCoherente(query, productos, sugerencias, mostrarSugerencias, selectedIndex);
      match k
      case ArrowDown =>
        selectedIndex := Bajar(selectedIndex, |sugerencias|);
      case ArrowUp =>
        selectedIndex := Subir(selectedIndex);
      case Enter =>
        if 0 <= selectedIndex < |sugerencias| {
          SeleccionarProducto(sugerencias[selectedIndex]);
        }
      case Escape =>
        mostrarSugerencias := false;
        selectedIndex := -1;
      case OtraTecla =>
    }

    /** `manejarTecladoCantidad`: Enter adds the product, Escape cancels the choice. */
    method ManejarTecladoCantidad(k: Tecla)
      modifies this
      requires Valid()
      ensures Valid()
      ensures productos == old(productos)
      ensures k == Enter && old(productoSeleccionado).Some? && CantidadPedida(old(cantidad)) > 0 ==>
        agregados == old(agregados) + [(old(productoSeleccionado).value, CantidadPedida(old(cantidad)))]
        && productoSeleccionado.None? && !mostrarCantidad && query == "" && cantidad == "1"
        && sugerencias == [] && !mostrarSugerencias && selectedIndex == old(selectedIndex)
      ensures k == Escape ==>
        agregados == old(agregados) && productoSeleccionado.None? && !mostrarCantidad && query == "" && cantidad == "1"
        && sugerencias == [] && !mostrarSugerencias && selectedIndex == old(selectedIndex)
      ensures k == Enter && (old(productoSeleccionado).None? || CantidadPedida(old(cantidad)) <= 0) ==> unchanged(this)
      ensures k != Enter && k != Escape ==> unchanged(this)
    {
      if k == Enter {
        AgregarProducto();
      } else if k == Escape {
        CancelarSeleccion();
      }
    }
  }
}
