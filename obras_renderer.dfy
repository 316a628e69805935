/** The plain-JavaScript renderer embedded in the React application
    (src/components/JavaScriptObrasRenderer.tsx): the same explore filter as
    the plain page, fixed to films or series, and a local library that only
    grows through the add button, which exists only for works not yet added
    (neither in the user's works, matched by `apiId` and kind, nor locally). */
module ObrasRenderer {
  import opened Seqs
  import opened Texto
  import opened Tipos
  import opened ExplorarPuro

  /** The part of a user's work the renderer looks at (its `obrasUsuario` prop). */
  datatype ObraDoUsuario = ObraDoUsuario(apiId: Option<string>, tipo: TipoObra)

  /** The object handed to `onAdicionar`. */
  datatype PayloadAdicao = PayloadAdicao(
    id: string,
    apiId: string,
    title: string,
    typ: TipoObra,
    description: string,
    image: string,
    releaseDate: string,
    rating: real)

  /** The payload built from a catalog work: `apiId` (and `id`) is the string
      of the catalog id, from which the id can be read back; `type` is its kind. */
  function Payload(obra: ObraJs): (p: PayloadAdicao)
    ensures p.apiId == p.id && ParseInt(p.apiId) == obra.id && p.typ == obra.tipo
    ensures p.title == obra.titulo && p.description == obra.descricao && p.image == obra.imagem
    ensures ParseInt(p.releaseDate) == obra.ano && p.rating == obra.avaliacao
  {
    IntToStringRoundTrip(obra.id);
    IntToStringRoundTrip(obra.ano);
    PayloadAdicao(IntToString(obra.id), IntToString(obra.id), obra.titulo, obra.tipo,
                  obra.descricao, obra.imagem, IntToString(obra.ano), obra.avaliacao)
  }

  /** The filter the renderer applies: films for `tipoAtivo` "filme", series
      for anything else. */
  function FiltroDoTipoAtivo(tipoAtivo: TipoObra): (f: Filtro<TipoObra>)
    ensures f == Apenas(Filme) || f == Apenas(Serie)
    ensures f == Apenas(Filme) <==> tipoAtivo == Filme
  {
    if tipoAtivo == Filme then Apenas(Filme) else Apenas(Serie)
  }

  /** The component's state: its props and refs. */
  class Renderer {
    var obrasUsuario: seq<ObraDoUsuario>
    const obrasDisponiveis: seq<ObraJs>
    var bibliotecaUsuario: seq<ObraJs>
    var filtroAtual: Filtro<TipoObra>
    var termoBuscaAtual: string

    /** `useRef` initial values. */
    constructor (obrasUsuario: seq<ObraDoUsuario>, catalogo: seq<ObraJs>, tipoAtivo: TipoObra, busca: string)
      ensures this.obrasUsuario == obrasUsuario && obrasDisponiveis == catalogo
      ensures bibliotecaUsuario == [] && IdsDistintos(bibliotecaUsuario)
      ensures filtroAtual == FiltroDoTipoAtivo(tipoAtivo) && termoBuscaAtual == busca
    {
      this.obrasUsuario := obrasUsuario;
      obrasDisponiveis := catalogo;
      bibliotecaUsuario := [];
      filtroAtual := FiltroDoTipoAtivo(tipoAtivo);
      termoBuscaAtual := busca;
    }

    /** The effect that runs when the props change: the filter refs follow
        the props and a readable saved library replaces the local one. */
    method Efeito(obrasUsuario: seq<ObraDoUsuario>, tipoAtivo: TipoObra, busca: string, salvo: Salvo<seq<ObraJs>>)
      modifies this
      ensures this.obrasUsuario == obrasUsuario
      ensures filtroAtual == FiltroDoTipoAtivo(tipoAtivo) && termoBuscaAtual == busca
      ensures bibliotecaUsuario == if salvo.Lido? then salvo.valor else old(bibliotecaUsuario)
    {
      this.obrasUsuario := obrasUsuario;
      filtroAtual := FiltroDoTipoAtivo(tipoAtivo);
      termoBuscaAtual := busca;
      if salvo.Lido? {
        bibliotecaUsuario := salvo.valor;
      }
    }

    /** `jaAdicionada`: some user work has the catalog id as `apiId` and the
        same kind, or the local library has an entry with that id. */
    predicate JaAdicionada(obra: ObraJs)
      reads this
    {
      (exists o :: o in obrasUsuario && o.apiId == Some(IntToString(obra.id)) && o.tipo == obra.tipo) ||
      Contem(bibliotecaUsuario, obra.id)
    }

    /** A user work stored from a catalog work's payload marks that catalog
        work as added; when it is the only work and the local library is
        empty, it marks exactly the catalog works with the same id and kind. */
    lemma JaAdicionadaPeloPayload(obra: ObraJs, outra: ObraJs)
      ensures ObraDoUsuario(Some(Payload(obra).apiId), Payload(obra).typ) in obrasUsuario ==> JaAdicionada(obra)
      ensures obrasUsuario == [ObraDoUsuario(Some(Payload(obra).apiId), Payload(obra).typ)] &&
              bibliotecaUsuario == [] ==>
        (JaAdicionada(outra) <==> outra.id == obra.id && outra.tipo == obra.tipo)
    {
      IntToStringInjective(outra.id, obra.id);
    }

    /** The list `renderizarListaExplorar` shows. */
    function ListaExplorar(): seq<ObraJs>
      reads this
    {
      ObrasFiltradas(obrasDisponiveis, filtroAtual, termoBuscaAtual)
    }

    /** The add button of a catalog card. When the work is already added the
        button is disabled and nothing happens; otherwise the payload goes to
        `onAdicionar` and one entry is appended to the local library. */
    method CliqueAdicionar(obra: ObraJs, dataAdicao: string) returns (enviado: Option<PayloadAdicao>)
      modifies this
      ensures old(JaAdicionada(obra)) ==> enviado == None && bibliotecaUsuario == old(bibliotecaUsuario)
      ensures !old(JaAdicionada(obra)) ==>
        enviado == Some(Payload(obra)) &&
        bibliotecaUsuario == old(bibliotecaUsuario) + [Entrada(obra, dataAdicao)]
      ensures JaAdicionada(obra)
      ensures old(IdsDistintos(bibliotecaUsuario)) ==> IdsDistintos(bibliotecaUsuario)
      ensures obrasUsuario == old(obrasUsuario)
      ensures filtroAtual == old(filtroAtual) && termoBuscaAtual == old(termoBuscaAtual)
    {
      if JaAdicionada(obra) {
        enviado := None;
      } else {
        enviado := Some(Payload(obra));
        bibliotecaUsuario := bibliotecaUsuario + [Entrada(obra, dataAdicao)];
        assert Entrada(obra, dataAdicao) in bibliotecaUsuario;
        if old(IdsDistintos(bibliotecaUsuario)) {
          AplicarPreservaIds(old(bibliotecaUsuario), Adicionar(obra, dataAdicao));
        }
      }
    }

    /** The remove button of a library card: no local entry keeps the id and
        the others stay in order. */
    method CliqueRemover(id: int)
      modifies this
      ensures bibliotecaUsuario == Filter((o: ObraJs) => o.id != id, old(bibliotecaUsuario))
      ensures !Contem(bibliotecaUsuario, id)
      ensures IsSubsequence(bibliotecaUsuario, old(bibliotecaUsuario))
      ensures old(IdsDistintos(bibliotecaUsuario)) ==> IdsDistintos(bibliotecaUsuario)
      ensures obrasUsuario == old(obrasUsuario)
      ensures filtroAtual == old(filtroAtual) && termoBuscaAtual == old(termoBuscaAtual)
    {
      var p := (o: ObraJs) => o.id != id;
      FilterIsSubsequence(p, bibliotecaUsuario);
      if IdsDistintos(bibliotecaUsuario) {
        FilterPreservaIds(p, bibliotecaUsuario);
      }
      bibliotecaUsuario := Filter(p, bibliotecaUsuario);
    }
  }

  /** The renderer never shows books: its explore list holds only works of
      the kind its filter names, films or series. */
  lemma ListaSemLivros(catalogo: seq<ObraJs>, tipoAtivo: TipoObra, termo: string)
    ensures forall o :: o in ObrasFiltradas(catalogo, FiltroDoTipoAtivo(tipoAtivo), termo) ==>
      o.tipo == (if tipoAtivo == Filme then Filme else Serie)
  {
  }
}
