/** The user menu (`components/user-menu.tsx`): nothing without a signed-in
    user and a profile; otherwise the avatar's initials and an admin badge. */
module UserMenu {
  import opened Common
  import opened JsText

  /** The profile row the menu shows (`lib/auth.tsx`). */
  datatype Perfil = Perfil(id: string, nombre: string, email: string, rol: string, activo: bool)

  /** `n[0]` of each word, where the first character of an empty word is `undefined`,
      which `join` turns into nothing. */
  function Primeras(palabras: seq<string>): (r: seq<string>)
    ensures |r| == |palabras|
    ensures forall i :: 0 <= i < |r| ==> r[i] == (if palabras[i] == [] then [] else [palabras[i][0]])
  {
    if palabras == [] then []
    else [if palabras[0] == [] then [] else [palabras[0][0]]] + Primeras(palabras[1..])
  }

  /** `join("")`. */
  function Concatenar(ws: seq<string>): string
  {
    if ws == [] then [] else ws[0] + Concatenar(ws[1..])
  }

  /** The initials: the first character of each space-separated word, upper-cased,
      at most two. */
  function Iniciales(nombre: string): (r: string)
    ensures |r| <= 2
  {
    Take(Upper(Concatenar(Primeras(Split(nombre, ' ')))), 2)
  }

  /** A reference reading of the initials: the characters that are not a space and
      follow a space or the start (`despuesDeEspacio` says what came before). */
  function InicialesDePalabras(s: string, despuesDeEspacio: bool): string
  {
    if s == [] then []
    else (if despuesDeEspacio && s[0] != ' ' then [s[0]] else []) + InicialesDePalabras(s[1..], s[0] == ' ')
  }

  lemma {:induction false} SinInicialesDentroDePalabra(q: string, resto: string)
    requires ' ' !in q
    ensures InicialesDePalabras(q + [' '] + resto, false) == InicialesDePalabras(resto, true)
    ensures InicialesDePalabras(q, false) == []
  {
    if q == [] {
      assert q + [' '] + resto == [' '] + resto;
      assert ([' '] + resto)[1..] == resto;
    } else {
      assert (q + [' '] + resto)[1..] == q[1..] + [' '] + resto;
      SinInicialesDentroDePalabra(q[1..], resto);
    }
  }

  lemma PrimeraDePalabra(q: string, resto: string)
    requires ' ' !in q
    ensures InicialesDePalabras(q + [' '] + resto, true)
      == (if q == [] then [] else [q[0]]) + InicialesDePalabras(resto, true)
    ensures InicialesDePalabras(q, true) == (if q == [] then [] else [q[0]])
  {
    if q == [] {
      assert q + [' '] + resto == [' '] + resto;
      assert ([' '] + resto)[1..] == resto;
    } else {
      assert (q + [' '] + resto)[1..] == q[1..] + [' '] + resto;
      SinInicialesDentroDePalabra(q[1..], resto);
    }
  }

  lemma ConcatenarPrimera(a: string, ws: seq<string>)
    ensures Concatenar([a] + ws) == a + Concatenar(ws)
  {
    assert ([a] + ws)[1..] == ws;
  }

  /** A name without spaces is one word, whose first character is its initial. */
  lemma UnaPalabra(s: string)
    requires ' ' !in s
    ensures Concatenar(Primeras(Split(s, ' '))) == (if s == [] then [] else [s[0]])
  {
    var cabeza := if s == [] then [] else [s[0]];
    assert Split(s, ' ') == [s];
    assert Primeras([s]) == [cabeza] + [];
    ConcatenarPrimera(cabeza, []);
  }

  /** Up to the first space, the first word contributes its first character. */
  lemma PrimeraPalabra(s: string, k: nat)
    requires ' ' in s && k == IndexOf(s, ' ')
    ensures Concatenar(Primeras(Split(s, ' ')))
      == (if k == 0 then [] else [s[0]]) + Concatenar(Primeras(Split(s[k + 1..], ' ')))
  {
    var palabra := s[..k];
    var cabeza := if k == 0 then [] else [s[0]];
    var resto := Primeras(Split(s[k + 1..], ' '));
    assert Split(s, ' ') == [palabra] + Split(s[k + 1..], ' ');
    assert Primeras([palabra] + Split(s[k + 1..], ' ')) == [cabeza] + resto;
    ConcatenarPrimera(cabeza, resto);
  }

  /** Splitting on spaces and taking each word's first character picks exactly the
      characters that start a word; the empty words that repeated spaces leave add
      nothing. */
  lemma {:induction false} InicialesPorPalabras(s: string)
    ensures Concatenar(Primeras(Split(s, ' '))) == InicialesDePalabras(s, true)
    decreases |s|
  {
    if ' ' !in s {
      UnaPalabra(s);
      PrimeraDePalabra(s, []);
    } else {
      var k := IndexOf(s, ' ');
      var palabra, resto := s[..k], s[k + 1..];
      InicialesPorPalabras(resto);
      PrimeraPalabra(s, k);
      assert s == palabra + [' '] + resto;
      PrimeraDePalabra(palabra, resto);
    }
  }

  /** The initials are the upper-cased first two word-starting characters. */
  lemma InicialesSpec(nombre: string)
    ensures Iniciales(nombre) == Take(Upper(InicialesDePalabras(nombre, true)), 2)
  {
    InicialesPorPalabras(nombre);
  }

  /** What the menu renders. */
  datatype Vista = Vista(iniciales: string, nombre: string, email: string, insigniaAdmin: bool)

  /** The render: nothing unless there is a user and a profile; the admin badge only for
      the "admin" role. */
  function Render<U>(user: Option<U>, perfil: Option<Perfil>): (r: Option<Vista>)
    ensures r.Some? <==> user.Some? && perfil.Some?
    ensures r.Some? ==> (r.value.insigniaAdmin <==> perfil.value.rol == "admin")
    ensures r.Some? ==> r.value.iniciales == Iniciales(perfil.value.nombre) && |r.value.iniciales| <= 2
  {
    if user.None? || perfil.None? then None
    else
      var p := perfil.value;
      Some(Vista(Iniciales(p.nombre), p.nombre, p.email, p.rol == "admin"))
  }
}
