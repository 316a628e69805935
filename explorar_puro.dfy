/** The plain-JavaScript explore page (public/explorar-puro/app.js): a fixed
    catalog, a type filter and a search term set by event handlers, and the
    user's library, which refuses a second entry with the same id. */
module ExplorarPuro {
  import opened Seqs
  import opened Texto
  import opened Tipos

  /** A catalog work of the page, and a library entry when `dataAdicao` is set. */
  datatype ObraJs = ObraJs(
    id: int,
    titulo: string,
    tipo: TipoObra,
    descricao: string,
    imagem: string,
    ano: int,
    avaliacao: real,
    dataAdicao: Option<string>)

  /** The explore filter: the kind matches (or the filter is "todos") and the
      lower-cased title contains the lower-cased search term. */
  predicate PassaFiltro(obra: ObraJs, filtro: Filtro<TipoObra>, termo: string) {
    filtro.Aceita(obra.tipo) && Contains(Lower(obra.titulo), Lower(termo))
  }

  /** `obrasDisponiveis.filter(...)` in `renderizarListaExplorar`. */
  function ObrasFiltradas(catalogo: seq<ObraJs>, filtro: Filtro<TipoObra>, termo: string): seq<ObraJs> {
    Filter((o: ObraJs) => PassaFiltro(o, filtro, termo), catalogo)
  }

  /** The explore list holds exactly the catalog works that pass the filter,
      in catalog order. */
  lemma ObrasFiltradasSpec(catalogo: seq<ObraJs>, filtro: Filtro<TipoObra>, termo: string)
    ensures var r := ObrasFiltradas(catalogo, filtro, termo);
      (forall o :: o in r <==> o in catalogo && PassaFiltro(o, filtro, termo)) &&
      IsSubsequence(r, catalogo)
  {
    FilterIsSubsequence((o: ObraJs) => PassaFiltro(o, filtro, termo), catalogo);
  }

  /** With filter "todos" and an empty term the explore list is the whole catalog. */
  lemma SemFiltroMostraTudo(catalogo: seq<ObraJs>)
    ensures ObrasFiltradas(catalogo, Todos, "") == catalogo
  {
    forall i | 0 <= i < |catalogo| ensures PassaFiltro(catalogo[i], Todos, "") {
      ContainsTrivial(Lower(catalogo[i].titulo));
    }
    FilterKeepsAll((o: ObraJs) => PassaFiltro(o, Todos, ""), catalogo);
  }

  /** The entry `adicionarNaBiblioteca` pushes: the catalog fields plus the
      time of addition. */
  function Entrada(obra: ObraJs, dataAdicao: string): (e: ObraJs)
    ensures e.(dataAdicao := obra.dataAdicao) == obra && e.dataAdicao == Some(dataAdicao)
  {
    obra.(dataAdicao := Some(dataAdicao))
  }

  /** No two library entries share an id. */
  predicate IdsDistintos(b: seq<ObraJs>) {
    forall i, j :: 0 <= i < j < |b| ==> b[i].id != b[j].id
  }

  /** `bibliotecaUsuario.some(obra => obra.id === id)`. */
  predicate Contem(b: seq<ObraJs>, id: int) {
    exists o :: o in b && o.id == id
  }

  /** The library operations of the page. */
  datatype Operacao = Adicionar(obra: ObraJs, dataAdicao: string) | Remover(id: int)

  /** One library update: an add appends only when the id is absent, a
      remove keeps every entry with another id. */
  function Aplicar(b: seq<ObraJs>, op: Operacao): seq<ObraJs> {
    match op
    case Adicionar(obra, data) => if Contem(b, obra.id) then b else b + [Entrada(obra, data)]
    case Remover(id) => Filter((o: ObraJs) => o.id != id, b)
  }

  function AplicarTodas(b: seq<ObraJs>, ops: seq<Operacao>): seq<ObraJs>
    decreases |ops|
  {
    if ops == [] then b else AplicarTodas(Aplicar(b, ops[0]), ops[1..])
  }

  /** One add or remove keeps the ids distinct. */
  lemma AplicarPreservaIds(b: seq<ObraJs>, op: Operacao)
    requires IdsDistintos(b)
    ensures IdsDistintos(Aplicar(b, op))
  {
    match op
    case Adicionar(obra, data) =>
    case Remover(id) =>
      FilterPreservaIds((o: ObraJs) => o.id != id, b);
  }

  lemma {:induction false} FilterPreservaIds(p: ObraJs -> bool, b: seq<ObraJs>)
    requires IdsDistintos(b)
    ensures IdsDistintos(Filter(p, b))
  {
    if b != [] {
      FilterPreservaIds(p, b[1..]);
      if p(b[0]) {
        var r := Filter(p, b[1..]);
        forall j | 0 <= j < |r| ensures r[j].id != b[0].id {
          assert r[j] in r;
          var k :| 0 <= k < |b[1..]| && b[1..][k] == r[j];
          assert b[k + 1] == r[j];
        }
      }
    }
  }

  /** Library ids stay pairwise distinct under any sequence of adds and
      removes that starts from distinct ids. */
  lemma {:induction false} IdsDistintosSempre(b: seq<ObraJs>, ops: seq<Operacao>)
    requires IdsDistintos(b)
    ensures IdsDistintos(AplicarTodas(b, ops))
    decreases |ops|
  {
    if ops != [] {
      AplicarPreservaIds(b, ops[0]);
      IdsDistintosSempre(Aplicar(b, ops[0]), ops[1..]);
    }
  }

  /** The page's module-level state. */
  class Pagina {
    /** `obrasDisponiveis`, the fixed catalog. */
    const obrasDisponiveis: seq<ObraJs>
    var bibliotecaUsuario: seq<ObraJs>
    var filtroAtual: Filtro<TipoObra>
    var termoBuscaAtual: string

    /** The initial state followed by `carregarDoLocalStorage`: a saved
        library replaces the empty one. */
    constructor (catalogo: seq<ObraJs>, salvo: Option<seq<ObraJs>>)
      ensures obrasDisponiveis == catalogo
      ensures bibliotecaUsuario == salvo.GetOr([])
      ensures filtroAtual == Todos && termoBuscaAtual == ""
    {
      obrasDisponiveis := catalogo;
      bibliotecaUsuario := salvo.GetOr([]);
      filtroAtual := Todos;
      termoBuscaAtual := "";
    }

    /** `verificarSeAdicionada`. */
    predicate VerificarSeAdicionada(id: int)
      reads this
    {
      Contem(bibliotecaUsuario, id)
    }

    /** The list `renderizarListaExplorar` shows. */
    function ListaExplorar(): seq<ObraJs>
      reads this
    {
      ObrasFiltradas(obrasDisponiveis, filtroAtual, termoBuscaAtual)
    }

    /** `adicionarNaBiblioteca`: a work already in the library leaves it
        unchanged; otherwise one entry is appended at the end. */
    method AdicionarNaBiblioteca(obra: ObraJs, dataAdicao: string)
      modifies this
      ensures bibliotecaUsuario == Aplicar(old(bibliotecaUsuario), Adicionar(obra, dataAdicao))
      ensures old(VerificarSeAdicionada(obra.id)) ==> bibliotecaUsuario == old(bibliotecaUsuario)
      ensures !old(VerificarSeAdicionada(obra.id)) ==>
        bibliotecaUsuario == old(bibliotecaUsuario) + [Entrada(obra, dataAdicao)]
      ensures VerificarSeAdicionada(obra.id)
      ensures old(IdsDistintos(bibliotecaUsuario)) ==> IdsDistintos(bibliotecaUsuario)
      ensures filtroAtual == old(filtroAtual) && termoBuscaAtual == old(termoBuscaAtual)
    {
      if !VerificarSeAdicionada(obra.id) {
        bibliotecaUsuario := bibliotecaUsuario + [Entrada(obra, dataAdicao)];
        assert Entrada(obra, dataAdicao) in bibliotecaUsuario;
      }
      if old(IdsDistintos(bibliotecaUsuario)) {
        AplicarPreservaIds(old(bibliotecaUsuario), Adicionar(obra, dataAdicao));
      }
    }

    /** The state change of `removerDaBiblioteca`: no entry keeps the id, the
        others stay in order, an absent id changes nothing. */
    method RemoverDaBiblioteca(id: int)
      modifies this
      ensures bibliotecaUsuario == Aplicar(old(bibliotecaUsuario), Remover(id))
      ensures !VerificarSeAdicionada(id)
      ensures IsSubsequence(bibliotecaUsuario, old(bibliotecaUsuario))
      ensures !old(VerificarSeAdicionada(id)) ==> bibliotecaUsuario == old(bibliotecaUsuario)
      ensures old(IdsDistintos(bibliotecaUsuario)) ==> IdsDistintos(bibliotecaUsuario)
      ensures filtroAtual == old(filtroAtual) && termoBuscaAtual == old(termoBuscaAtual)
    {
      var p := (o: ObraJs) => o.id != id;
      FilterIsSubsequence(p, bibliotecaUsuario);
      FilterKeepsAll(p, bibliotecaUsuario);
      if IdsDistintos(bibliotecaUsuario) {
        FilterPreservaIds(p, bibliotecaUsuario);
      }
      bibliotecaUsuario := Filter(p, bibliotecaUsuario);
    }

    /** The search input handler. */
    method DefinirTermoBusca(termo: string)
      modifies this
      ensures termoBuscaAtual == termo
      ensures bibliotecaUsuario == old(bibliotecaUsuario) && filtroAtual == old(filtroAtual)
    {
      termoBuscaAtual := termo;
    }

    /** The filter button handler. */
    method DefinirFiltro(filtro: Filtro<TipoObra>)
      modifies this
      ensures filtroAtual == filtro
      ensures bibliotecaUsuario == old(bibliotecaUsuario) && termoBuscaAtual == old(termoBuscaAtual)
    {
      filtroAtual := filtro;
    }
  }
}
