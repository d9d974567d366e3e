/** The product lookup shared by both search boxes
    (`components/product-search.tsx` and
    `components/product-search-with-quantity.tsx`): substring matching on
    name, code and category, the relevance order, the cut to 8 suggestions,
    and the keyboard moves over the suggestion list. */
module ProductFilter {
  import opened Common
  import opened JsText
  import opened Sorting
  import opened Records

  /** At most this many suggestions are shown. */
  const MaxSugerencias: nat := 8

  /** Suggestions are computed once the trimmed query has this many characters. */
  const MinConsulta: nat := 2

  /** The search term: the query lower-cased and trimmed. */
  function Termino(busqueda: string): string
  {
    Trim(Lower(busqueda))
  }

  /** An optional text field contains `t` (an absent field never does). */
  predicate CampoContiene(campo: Option<string>, t: string)
  {
    campo.Some? && Contains(Lower(campo.value), t)
  }

  /** The filter: the term occurs in the name, the code or the category. */
  predicate Coincide(p: Producto, t: string)
  {
    Contains(Lower(p.nombre), t) || CampoContiene(p.codigo, t) || CampoContiene(p.categoria, t)
  }

  predicate CodigoExacto(p: Producto, t: string)
  {
    p.codigo.Some? && Lower(p.codigo.value) == t
  }

  predicate NombreEmpieza(p: Producto, t: string)
  {
    t <= Lower(p.nombre)
  }

  /** The relevance class: 0 exact code and name prefix, 1 exact code, 2 name prefix, 3 neither. */
  function Rango(p: Producto, t: string): (r: nat)
    ensures r < 4
    ensures r < 2 <==> CodigoExacto(p, t)
    ensures r % 2 == 0 <==> NombreEmpieza(p, t)
  {
    (if CodigoExacto(p, t) then 0 else 2) + (if NombreEmpieza(p, t) then 0 else 1)
  }

  /** The comparator of the sort as an order: exact code first, then names that start
      with the term, then by name. */
  function AntesQue(t: string): (Producto, Producto) -> bool
  {
    (a: Producto, b: Producto) => Rango(a, t) < Rango(b, t) || (Rango(a, t) == Rango(b, t) && LexLe(a.nombre, b.nombre))
  }

  /** The comparator returns a negative number exactly when `a` must come before `b`:
      the order agrees with the three-key comparison branch by branch. */
  lemma AntesQueCompara(a: Producto, b: Producto, t: string)
    ensures CodigoExacto(a, t) && !CodigoExacto(b, t) ==> AntesQue(t)(a, b) && !AntesQue(t)(b, a)
    ensures CodigoExacto(a, t) == CodigoExacto(b, t) && NombreEmpieza(a, t) && !NombreEmpieza(b, t)
      ==> AntesQue(t)(a, b) && !AntesQue(t)(b, a)
    ensures CodigoExacto(a, t) == CodigoExacto(b, t) && NombreEmpieza(a, t) == NombreEmpieza(b, t)
      ==> (AntesQue(t)(a, b) <==> LexLe(a.nombre, b.nombre))
  {
  }

  lemma AntesQueEsPreorden(t: string)
    ensures IsTotalPreorder(AntesQue(t))
  {
    var le := AntesQue(t);
    forall a: Producto, b: Producto
      ensures le(a, b) || le(b, a)
    {
      LexLeTotal(a.nombre, b.nombre);
    }
    forall a: Producto, b: Producto, c: Producto | le(a, b) && le(b, c)
      ensures le(a, c)
    {
      if Rango(a, t) == Rango(b, t) == Rango(c, t) {
        LexLeTransitive(a.nombre, b.nombre, c.nombre);
      }
    }
  }

  /** The products the term matches, in catalogue order. */
  function Coincidencias(productos: seq<Producto>, t: string): seq<Producto>
  {
    Filter(productos, (p: Producto) => Coincide(p, t))
  }

  /** `filtrarProductos`: filter, sort by relevance (ties keep catalogue order), keep 8. */
  function FiltrarProductos(productos: seq<Producto>, busqueda: string): seq<Producto>
  {
    var t := Termino(busqueda);
    Take(SortBy(Coincidencias(productos, t), AntesQue(t)), MaxSugerencias)
  }

  /** The suggestions are at most 8 matching products from the catalogue, in relevance
      order, as many as there are matches up to 8. */
  lemma {:induction false} FiltrarProductosSpec(productos: seq<Producto>, busqueda: string)
    ensures var r := FiltrarProductos(productos, busqueda);
      var t := Termino(busqueda);
      && |r| == (if |Coincidencias(productos, t)| < MaxSugerencias then |Coincidencias(productos, t)| else MaxSugerencias)
      && (forall i :: 0 <= i < |r| ==> r[i] in productos && Coincide(r[i], t))
      && SortedBy(r, AntesQue(t))
      && multiset(r) <= multiset(Coincidencias(productos, t))
  {
    var t := Termino(busqueda);
    var m := Coincidencias(productos, t);
    var r := Take(SortBy(m, AntesQue(t)), MaxSugerencias);
    assert r == FiltrarProductos(productos, busqueda);
    AntesQueEsPreorden(t);
    SortedPrefix(m, AntesQue(t), MaxSugerencias);
    forall i | 0 <= i < |r|
      ensures r[i] in productos && Coincide(r[i], t)
    {
      assert r[i] in r;
    }
  }

  /** No match left out of the suggestions ranks ahead of one shown. */
  lemma {:induction false} FiltrarProductosMejores(productos: seq<Producto>, busqueda: string)
    ensures var r := FiltrarProductos(productos, busqueda);
      var t := Termino(busqueda);
      forall p :: p in productos && Coincide(p, t) && p !in r ==>
        forall i :: 0 <= i < |r| ==> AntesQue(t)(r[i], p)
  {
    var t := Termino(busqueda);
    var m := Coincidencias(productos, t);
    var r := Take(SortBy(m, AntesQue(t)), MaxSugerencias);
    assert r == FiltrarProductos(productos, busqueda);
    AntesQueEsPreorden(t);
    SortedPrefixLeftOut(m, AntesQue(t), MaxSugerencias);
    forall p | p in productos && Coincide(p, t) && p !in r
      ensures forall i :: 0 <= i < |r| ==> AntesQue(t)(r[i], p)
    {
      assert p in m;
    }
  }

  /** The characters of `q` that are not white space. */
  function NoBlancos(q: string): (n: nat)
    ensures n <= |q|
  {
    if q == [] then 0 else NoBlancos(q[..|q| - 1]) + (if IsWhitespace(q[|q| - 1]) then 0 else 1)
  }

  /** The query is long enough for suggestions once trimmed: it holds two characters
      that are not white space (`ConsultaLargaTrim` shows the two readings agree). */
  predicate ConsultaLarga(q: string)
  {
    NoBlancos(q) >= MinConsulta
  }

  lemma {:induction false} NoBlancosConcat(a: string, b: string)
    ensures NoBlancos(a + b) == NoBlancos(a) + NoBlancos(b)
    decreases |b|
  {
    if b == [] {
      assert a + b == a;
    } else {
      assert (a + b)[..|a + b| - 1] == a + b[..|b| - 1];
      NoBlancosConcat(a, b[..|b| - 1]);
    }
  }

  lemma {:induction false} NoBlancosBlancos(s: string)
    requires AllWhitespace(s)
    ensures NoBlancos(s) == 0
  {
    if s != [] {
      NoBlancosBlancos(s[..|s| - 1]);
    }
  }

  /** A string of two or more characters with no white space at either end has two
      characters that are not white space. */
  lemma ExtremosNoBlancos(r: string)
    requires |r| >= 2 && !IsWhitespace(r[0]) && !IsWhitespace(r[|r| - 1])
    ensures NoBlancos(r) >= 2
  {
    var m := r[..|r| - 1];
    assert m[..|m| - 1] + [m[|m| - 1]] == m;
    NoBlancosConcat(m[..|m| - 1], [m[|m| - 1]]);
    assert NoBlancos([r[0]]) == 1 by { assert [r[0]][..0] == []; }
    NoBlancosConcat([r[0]], m[1..]);
    assert m == [r[0]] + m[1..];
  }

  /** Trimming drops only white space. */
  lemma NoBlancosTrim(q: string)
    ensures NoBlancos(Trim(q)) == NoBlancos(q)
  {
    var t := TrimStart(q);
    var r := TrimEnd(t);
    TrimStartSpec(q);
    TrimEndSpec(t);
    assert Trim(q) == r;
    assert q == q[..|q| - |t|] + t;
    assert t == r + t[|r|..];
    NoBlancosConcat(q[..|q| - |t|], t);
    NoBlancosConcat(r, t[|r|..]);
    NoBlancosBlancos(q[..|q| - |t|]);
    NoBlancosBlancos(t[|r|..]);
  }

  /** The query is long once trimmed exactly when it holds two characters that are not
      white space. */
  lemma ConsultaLargaTrim(q: string)
    ensures ConsultaLarga(q) <==> |Trim(q)| >= MinConsulta
  {
    NoBlancosTrim(q);
    TrimSpec(q);
    var r := Trim(q);
    if |r| >= 2 {
      ExtremosNoBlancos(r);
    }
  }

  /** The keys the search box reacts to. */
  datatype Tecla = ArrowDown | ArrowUp | Enter | Escape | OtraTecla

  /** ArrowDown: one step down, never past the last suggestion. */
  function Bajar(prev: int, len: nat): (r: int)
    ensures prev < len - 1 ==> r == prev + 1
    ensures prev >= len - 1 ==> r == prev
    ensures -1 <= prev < len ==> -1 <= r < len && r >= prev
  {
    if prev < len - 1 then prev + 1 else prev
  }

  /** ArrowUp: one step up, never above -1 (nothing highlighted). */
  function Subir(prev: int): (r: int)
    ensures r >= -1
    ensures prev > 0 ==> r == prev - 1
    ensures prev <= 0 ==> r == -1
  {
    if prev > 0 then prev - 1 else -1
  }
}
