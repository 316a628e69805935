/** The data types of the shelf: kinds of work, the closed set of genres,
    a work (`Obra`) and the user who owns an ordered list of works
    (src/types/obra.ts). */
module Tipos {
  import opened Seqs

  /** `TipoObra`: book, film or series. */
  datatype TipoObra = Livro | Filme | Serie

  /** The string literal of each kind, as stored and compared in the application. */
  function NomeTipo(t: TipoObra): string {
    match t
    case Livro => "livro"
    case Filme => "filme"
    case Serie => "serie"
  }

  /** Reads a kind back from its literal. */
  function TipoDeNome(s: string): Option<TipoObra> {
    if s == "livro" then Some(Livro)
    else if s == "filme" then Some(Filme)
    else if s == "serie" then Some(Serie)
    else None
  }

  /** Every kind, in declaration order. */
  const ListaTipos: seq<TipoObra> := [Livro, Filme, Serie]

  /** Exactly three kinds, each with its own literal, and the literals read back. */
  lemma TiposSaoTres()
    ensures |ListaTipos| == 3
    ensures forall t :: t in ListaTipos
    ensures forall i, j :: 0 <= i < j < |ListaTipos| ==> NomeTipo(ListaTipos[i]) != NomeTipo(ListaTipos[j])
    ensures forall t: TipoObra :: TipoDeNome(NomeTipo(t)) == Some(t)
    ensures forall s, t :: TipoDeNome(s) == Some(t) ==> NomeTipo(t) == s
  {
    forall t ensures t in ListaTipos {
      match t
      case Livro => assert ListaTipos[0] == t;
      case Filme => assert ListaTipos[1] == t;
      case Serie => assert ListaTipos[2] == t;
    }
  }

  /** `Genero`: a closed set of fourteen genres. */
  datatype Genero =
    | Ficcao | Romance | Fantasia | Misterio | Terror | Aventura | Biografia
    | Historia | Ciencia | Comedia | Drama | Acao | Documentario | Outros

  /** Every genre, in the order the application lists them. */
  const Generos: seq<Genero> := [Ficcao, Romance, Fantasia, Misterio, Terror, Aventura,
    Biografia, Historia, Ciencia, Comedia, Drama, Acao, Documentario, Outros]

  /** The string literal of each genre. */
  function NomeGenero(g: Genero): string {
    match g
    case Ficcao => "Ficção"
    case Romance => "Romance"
    case Fantasia => "Fantasia"
    case Misterio => "Mistério"
    case Terror => "Terror"
    case Aventura => "Aventura"
    case Biografia => "Biografia"
    case Historia => "História"
    case Ciencia => "Ciência"
    case Comedia => "Comédia"
    case Drama => "Drama"
    case Acao => "Ação"
    case Documentario => "Documentário"
    case Outros => "Outros"
  }

  /** The genre whose literal is `s`, if `s` is one of the fourteen. */
  function GeneroDeNome(s: string): Option<Genero> {
    if s == "Ficção" then Some(Ficcao)
    else if s == "Romance" then Some(Romance)
    else if s == "Fantasia" then Some(Fantasia)
    else if s == "Mistério" then Some(Misterio)
    else if s == "Terror" then Some(Terror)
    else if s == "Aventura" then Some(Aventura)
    else if s == "Biografia" then Some(Biografia)
    else if s == "História" then Some(Historia)
    else if s == "Ciência" then Some(Ciencia)
    else if s == "Comédia" then Some(Comedia)
    else if s == "Drama" then Some(Drama)
    else if s == "Ação" then Some(Acao)
    else if s == "Documentário" then Some(Documentario)
    else if s == "Outros" then Some(Outros)
    else None
  }

  /** Where each genre stands in `Generos`. */
  function PosicaoGenero(g: Genero): (k: nat)
    ensures k < |Generos| && Generos[k] == g
  {
    match g
    case Ficcao => 0
    case Romance => 1
    case Fantasia => 2
    case Misterio => 3
    case Terror => 4
    case Aventura => 5
    case Biografia => 6
    case Historia => 7
    case Ciencia => 8
    case Comedia => 9
    case Drama => 10
    case Acao => 11
    case Documentario => 12
    case Outros => 13
  }

  /** Exactly fourteen genres, each listed once. */
  lemma GenerosSaoCatorze()
    ensures |Generos| == 14
    ensures forall g :: g in Generos
    ensures forall i, j :: 0 <= i < j < |Generos| ==> Generos[i] != Generos[j]
  {
    forall g ensures g in Generos {
      assert Generos[PosicaoGenero(g)] == g;
    }
    forall i | 0 <= i < |Generos| ensures PosicaoGenero(Generos[i]) == i {
    }
  }

  /** Each genre's literal reads back to that genre. */
  lemma NomeGeneroRoundTrip(g: Genero)
    ensures GeneroDeNome(NomeGenero(g)) == Some(g)
  {
  }

  /** Only a genre's own literal reads back to it. */
  lemma GeneroDeNomeInverso(s: string, g: Genero)
    requires GeneroDeNome(s) == Some(g)
    ensures NomeGenero(g) == s
  {
    if s == "Ficção" {
    } else if s == "Romance" {
    } else if s == "Fantasia" {
    } else if s == "Mistério" {
    } else if s == "Terror" {
    } else if s == "Aventura" {
    } else if s == "Biografia" {
    } else if s == "História" {
    } else if s == "Ciência" {
    } else if s == "Comédia" {
    } else if s == "Drama" {
    } else if s == "Ação" {
    } else if s == "Documentário" {
    } else if s == "Outros" {
    }
  }

  /** `Obra`. `apiId`, `imagem`, `dataLancamento` and `avaliacao` are the
      optional fields; a rating is a JavaScript number, kept as a `real`. */
  datatype Obra = Obra(
    id: string,
    apiId: Option<string>,
    nome: string,
    tipo: TipoObra,
    genero: Genero,
    descricao: string,
    imagem: Option<string>,
    curtida: bool,
    desejos: bool,
    dataCriacao: string,
    dataLancamento: Option<string>,
    avaliacao: Option<real>)

  /** `Usuario`: the profile and the works it owns, in insertion order. */
  datatype Usuario = Usuario(
    id: string,
    nome: string,
    email: string,
    bio: Option<string>,
    imagem: Option<string>,
    obras: seq<Obra>)

  /** One field of a `Partial<T>` record: absent (the old value stays) or
      present (it overwrites, even when the new value is `undefined`). */
  datatype Campo<T> = Manter | Definir(valor: T) {
    function Sobre(atual: T): T {
      match this
      case Manter => atual
      case Definir(v) => v
    }
  }

  /** A spread field as observed after the merge: an absent key leaves the
      old value, a present key leaves its own value. */
  predicate Aplica<T(==)>(c: Campo<T>, antes: T, depois: T) {
    (c.Manter? ==> depois == antes) && (c.Definir? ==> depois == c.valor)
  }

  /** A filter that is either "all" (`"todos"`/`"todas"`) or one value. */
  datatype Filtro<T(==)> = Todos | Apenas(valor: T) {
    predicate Aceita(x: T) {
      this == Todos || this == Apenas(x)
    }
  }

  /** What a `localStorage` read yields: nothing saved, text that does not
      parse, or a parsed value. */
  datatype Salvo<T> = Nada | Ilegivel | Lido(valor: T)
}
