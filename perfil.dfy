/** The profile page (src/pages/Perfil.tsx): the initials shown in the
    avatar and the edit form, which starts from the user's profile and is
    saved through the profile update. */
module Perfil {
  import opened Seqs
  import opened Texto
  import opened Tipos
  import opened ObrasContext

  /** `n[0]` of one word, as `join("")` writes it: the empty string when the
      word is empty (`undefined` joins as ""). */
  function Primeira(w: string): (r: string)
    ensures w == [] ==> r == []
    ensures w != [] ==> r == [w[0]]
  {
    if w == [] then [] else [w[0]]
  }

  /** `.map((n) => n[0]).join("")`. */
  function JuntarPrimeiras(ws: seq<string>): string {
    if ws == [] then [] else Primeira(ws[0]) + JuntarPrimeiras(ws[1..])
  }

  /** `iniciais`: split on single spaces, first letters joined, upper-cased,
      at most two kept. */
  function Iniciais(nome: string): (r: string)
    ensures |r| <= 2
  {
    Take(Upper(JuntarPrimeiras(Split(nome, ' '))), 2)
  }

  /** A word with no space in it. */
  predicate Palavra(w: string) {
    w != [] && forall i :: 0 <= i < |w| ==> w[i] != ' '
  }

  /** A name of two or more words separated by single spaces has as
      initials the upper-cased first letters of its first two words. */
  lemma IniciaisDeDuasPalavras(ws: seq<string>)
    requires |ws| >= 2 && Palavra(ws[0]) && Palavra(ws[1])
    requires forall k :: 2 <= k < |ws| ==> Palavra(ws[k])
    ensures Iniciais(Join(ws, ' ')) == [UpperChar(ws[0][0]), UpperChar(ws[1][0])]
  {
    assert Split(Join(ws, ' '), ' ') == ws by {
      forall k | 0 <= k < |ws| ensures Palavra(ws[k]) {
        if k == 0 || k == 1 { } else { assert 2 <= k < |ws|; }
      }
      SplitDePalavras(ws);
    }
    IniciaisDePartes(ws, Join(ws, ' '));
  }

  /** Words joined by single spaces split back into the same words. */
  lemma SplitDePalavras(ws: seq<string>)
    requires |ws| >= 1 && forall k :: 0 <= k < |ws| ==> Palavra(ws[k])
    ensures Split(Join(ws, ' '), ' ') == ws
  {
    forall k, i | 0 <= k < |ws| && 0 <= i < |ws[k]| ensures ws[k][i] != ' ' {
      assert Palavra(ws[k]);
    }
    SplitJoin(ws, ' ');
  }

  /** When a name splits into two or more words whose first two are not
      empty, its initials come from those two words. */
  lemma IniciaisDePartes(ws: seq<string>, nome: string)
    requires |ws| >= 2 && ws[0] != [] && ws[1] != []
    requires Split(nome, ' ') == ws
    ensures Iniciais(nome) == [UpperChar(ws[0][0]), UpperChar(ws[1][0])]
  {
    PrimeirasDeDuas(ws);
  }

  /** The first two letters joined come from the first two words. */
  lemma PrimeirasDeDuas(ws: seq<string>)
    requires |ws| >= 2 && ws[0] != [] && ws[1] != []
    ensures Take(Upper(JuntarPrimeiras(ws)), 2) == [UpperChar(ws[0][0]), UpperChar(ws[1][0])]
  {
    var c := JuntarPrimeiras(ws);
    assert c == [ws[0][0]] + ([ws[1][0]] + JuntarPrimeiras(ws[2..])) by {
      assert ws[1..][1..] == ws[2..];
    }
    assert c[0] == ws[0][0] && c[1] == ws[1][0];
  }

  /** A one-word name gives exactly one initial, its upper-cased first letter. */
  lemma IniciaisDeUmaPalavra(w: string)
    requires Palavra(w)
    ensures Iniciais(w) == [UpperChar(w[0])]
  {
    SplitJoin([w], ' ');
    assert JuntarPrimeiras([w]) == [w[0]];
  }

  /** Splitting a run of spaces gives only empty words. */
  lemma {:induction false} SoEspacos(s: string)
    requires forall i :: 0 <= i < |s| ==> s[i] == ' '
    ensures JuntarPrimeiras(Split(s, ' ')) == []
  {
    if s != [] {
      SoEspacos(s[1..]);
      assert Split(s, ' ') == [""] + Split(s[1..], ' ');
      assert (([""] + Split(s[1..], ' '))[1..]) == Split(s[1..], ' ');
    }
  }

  /** Empty words from repeated spaces contribute nothing: an empty name, or
      one made only of spaces, has empty initials. */
  lemma IniciaisDeEspacos(s: string)
    requires forall i :: 0 <= i < |s| ==> s[i] == ' '
    ensures Iniciais(s) == []
  {
    SoEspacos(s);
  }

  /** The edit form's fields. */
  datatype Formulario = Formulario(nome: string, email: string, bio: string, imagem: string)

  /** The form's initial value: name and e-mail copied, a missing bio or
      image shown as "". */
  function FormularioInicial(u: Usuario): (f: Formulario)
    ensures f.nome == u.nome && f.email == u.email
    ensures u.bio.None? ==> f.bio == ""
    ensures u.bio.Some? ==> f.bio == u.bio.value
    ensures u.imagem.None? ==> f.imagem == ""
    ensures u.imagem.Some? ==> f.imagem == u.imagem.value
  {
    Formulario(u.nome, u.email, u.bio.GetOr(""), u.imagem.GetOr(""))
  }

  /** `atualizarPerfil(formData)`: the four form fields are present, the id
      and the works are not. */
  function ParcialDoFormulario(f: Formulario): ParcialUsuario {
    ParcialUsuario(Manter, Definir(f.nome), Definir(f.email), Definir(Some(f.bio)), Definir(Some(f.imagem)), Manter)
  }

  /** Saving a form keeps the user's id and works and stores the four fields;
      saving it unedited changes nothing except that a missing bio or image
      becomes "". */
  lemma SalvarFormulario(u: Usuario, f: Formulario)
    ensures var r := MesclarPerfil(u, ParcialDoFormulario(f));
      r.id == u.id && r.obras == u.obras &&
      r.nome == f.nome && r.email == f.email && r.bio == Some(f.bio) && r.imagem == Some(f.imagem)
    ensures MesclarPerfil(u, ParcialDoFormulario(FormularioInicial(u))) ==
      u.(bio := Some(u.bio.GetOr("")), imagem := Some(u.imagem.GetOr("")))
  {
  }
}
