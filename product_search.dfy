/** The plain search box (`components/product-search.tsx`): typing fills the
    suggestion list once the trimmed query has 2 characters, the arrow keys
    move a highlighted index over it, and choosing a suggestion hands the
    product to the caller and clears the box. */
module ProductSearch {
  import opened Common
  import opened Records
  import opened ProductFilter

  /** The box's invariant on its values: the highlighted index is -1 or a suggestion
      whenever there are suggestions; the list is the filter's answer for a long enough
      query, and empty and hidden for a short one. */
  predicate Coherente(query: string, productos: seq<Producto>, sugerencias: seq<Producto>, mostrar: bool, idx: int)
  {
    && -1 <= idx
    && (sugerencias != [] ==> idx < |sugerencias|)
    && (ConsultaLarga(query) ==> sugerencias == FiltrarProductos(productos, query))
    && (!ConsultaLarga(query) ==> sugerencias == [] && !mostrar)
  }

  /** The effect on `[query, productos]` leaves the box coherent, whatever the index was. */
  lemma EfectoCoherente(query: string, productos: seq<Producto>, idx: int)
    requires -1 <= idx
    ensures ConsultaLarga(query) ==> Coherente(query, productos, FiltrarProductos(productos, query), true, -1)
    ensures !ConsultaLarga(query) ==> Coherente(query, productos, [], false, idx)
  {
  }

  /** Showing the list for a long query, hiding it, or moving the index within the list
      keeps the box coherent. */
  lemma MostrarCoherente(query: string, productos: seq<Producto>, sugerencias: seq<Producto>, mostrar: bool, idx: int)
    requires Coherente(query, productos, sugerencias, mostrar, idx)
    ensures ConsultaLarga(query) ==> Coherente(query, productos, sugerencias, true, idx)
    ensures Coherente(query, productos, sugerencias, false, idx)
    ensures Coherente(query, productos, sugerencias, false, -1)
    ensures sugerencias != [] ==> Coherente(query, productos, sugerencias, mostrar, Bajar(idx, |sugerencias|))
    ensures Coherente(query, productos, sugerencias, mostrar, Subir(idx))
  {
  }

  class ProductSearchBox {
    var query: string
    var productos: seq<Producto>
    var sugerencias: seq<Producto>
    var mostrarSugerencias: bool
    var selectedIndex: int
    /** The products handed to `onProductSelect`, oldest first. */
    var seleccionados: seq<Producto>

    predicate Valid()
      reads this
    {
      Coherente(query, productos, sugerencias, mostrarSugerencias, selectedIndex)
    }

    constructor ()
      ensures Valid()
      ensures query == "" && productos == [] && sugerencias == [] && !mostrarSugerencias
      ensures selectedIndex == -1 && seleccionados == []
    {
      query := "";
      productos := [];
      sugerencias := [];
      mostrarSugerencias := false;
      selectedIndex := -1;
      seleccionados := [];
    }

    /** The effect on `[query, productos]`. A short query empties and hides the list but
        leaves the highlighted index as it was. */
    method AlCambiarConsulta()
      modifies this
      requires -1 <= selectedIndex
      ensures Valid()
      ensures query == old(query) && productos == old(productos) && seleccionados == old(seleccionados)
      ensures ConsultaLarga(query) ==>
        sugerencias == FiltrarProductos(productos, query) && mostrarSugerencias && selectedIndex == -1
      ensures !ConsultaLarga(query) ==>
        sugerencias == [] && !mostrarSugerencias && selectedIndex == old(selectedIndex)
    {
      EfectoCoherente(query, productos, selectedIndex);
      if ConsultaLarga(query) {
        sugerencias := FiltrarProductos(productos, query);
        mostrarSugerencias := true;
        selectedIndex := -1;
      } else {
        sugerencias := [];
        mostrarSugerencias := false;
      }
    }

    /** Typing: the effect runs only when the text actually changes. */
    method SetQuery(q: string)
      modifies this
      requires Valid()
      ensures Valid()
      ensures query == q && productos == old(productos) && seleccionados == old(seleccionados)
      ensures q == old(query) ==> unchanged(this)
    {
      if q != query {
        query := q;
        AlCambiarConsulta();
      }
    }

    /** The catalogue arrives (a new list, so the effect runs). */
    method CargarProductos(ps: seq<Producto>)
      modifies this
      requires Valid()
      ensures Valid()
      ensures productos == ps && query == old(query) && seleccionados == old(seleccionados)
    {
      productos := ps;
      AlCambiarConsulta();
    }

    /** Focus shows the list again for a long enough query. */
    method Enfocar()
      modifies this
      requires Valid()
      ensures Valid()
      ensures mostrarSugerencias == (old(mostrarSugerencias) || ConsultaLarga(query))
      ensures query == old(query) && sugerencias == old(sugerencias) && selectedIndex == old(selectedIndex)
      ensures productos == old(productos) && seleccionados == old(seleccionados)
    {
      MostrarCoherente(query, productos, sugerencias, mostrarSugerencias, selectedIndex);
      if ConsultaLarga(query) {
        mostrarSugerencias := true;
      }
    }

    /** Leaving the box hides the list (after a delay that is not modelled). */
    method Desenfocar()
      modifies this
      requires Valid()
      ensures Valid()
      ensures !mostrarSugerencias
      ensures query == old(query) && sugerencias == old(sugerencias) && selectedIndex == old(selectedIndex)
      ensures productos == old(productos) && seleccionados == old(seleccionados)
    {
      MostrarCoherente(query, productos, sugerencias, mostrarSugerencias, selectedIndex);
      mostrarSugerencias := false;
    }

    /** Hands `p` to the caller and clears the box. */
    method SeleccionarProducto(p: Producto)
      modifies this
      requires Valid()
      ensures Valid()
      ensures seleccionados == old(seleccionados) + [p]
      ensures query == "" && sugerencias == [] && !mostrarSugerencias && selectedIndex == -1
      ensures productos == old(productos)
    {
      seleccionados := seleccionados + [p];
      var cambio := query != "";
      query := "";
      sugerencias := [];
      mostrarSugerencias := false;
      selectedIndex := -1;
      if cambio {
        AlCambiarConsulta();
      }
    }

    /** `manejarTeclado`: keys act only while a non-empty list is shown. */
    method ManejarTeclado(k: Tecla)
      modifies this
      requires Valid()
      ensures Valid()
      ensures productos == old(productos)
      ensures !old(mostrarSugerencias) || old(sugerencias) == [] ==> unchanged(this)
      ensures old(mostrarSugerencias) && old(sugerencias) != [] ==>
        match k
        case ArrowDown =>
          selectedIndex == Bajar(old(selectedIndex), |old(sugerencias)|)
          && query == old(query) && sugerencias == old(sugerencias) && mostrarSugerencias
          && seleccionados == old(seleccionados)
        case ArrowUp =>
          selectedIndex == Subir(old(selectedIndex))
          && query == old(query) && sugerencias == old(sugerencias) && mostrarSugerencias
          && seleccionados == old(seleccionados)
        case Enter =>
          if 0 <= old(selectedIndex) < |old(sugerencias)| then
            seleccionados == old(seleccionados) + [old(sugerencias)[old(selectedIndex)]]
            && query == "" && sugerencias == [] && !mostrarSugerencias && selectedIndex == -1
          else unchanged(this)
        case Escape =>
          !mostrarSugerencias && selectedIndex == -1
          && query == old(query) && sugerencias == old(sugerencias) && seleccionados == old(seleccionados)
        case OtraTecla => unchanged(this)
    {
      if !mostrarSugerencias || sugerencias == [] {
        return;
      }
      MostrarCoherente(query, productos, sugerencias, mostrarSugerencias, selectedIndex);
      match k
      case ArrowDown =>
        selectedIndex := Bajar(selectedIndex, |sugerencias|);
      case ArrowUp =>
        selectedIndex := Subir(selectedIndex);
      case Enter =>
        if 0 <= selectedIndex < |sugerencias| {
          SeleccionarProducto(sugerencias[selectedIndex]);
        }
      case Escape =>
        mostrarSugerencias := false;
        selectedIndex := -1;
      case OtraTecla =>
    }
  }
}
