/** The library page's filtering (src/pages/Biblioteca.tsx): a search term
    matched against name or description, a kind filter ("todas" or one kind)
    and a genre filter ("todos" or one genre), applied to all works, to the
    liked works and to the wishlisted works. */
module Biblioteca {
  import opened Seqs
  import opened Texto
  import opened Tipos

  /** The page's filter state: `busca`, `tipoFiltro`, `generoFiltro`. */
  datatype Filtros = Filtros(busca: string, tipo: Filtro<TipoObra>, genero: Filtro<Genero>)

  /** The predicate inside `filtrarObras`. */
  predicate Passa(o: Obra, f: Filtros) {
    (Contains(Lower(o.nome), Lower(f.busca)) || Contains(Lower(o.descricao), Lower(f.busca))) &&
    f.tipo.Aceita(o.tipo) &&
    f.genero.Aceita(o.genero)
  }

  /** `filtrarObras`. */
  function FiltrarObras(f: Filtros, lista: seq<Obra>): seq<Obra> {
    Filter((o: Obra) => Passa(o, f), lista)
  }

  /** A work is kept exactly when the search term occurs in its lower-cased
      name or description, the kind filter is "todas" or its kind, and the
      genre filter is "todos" or its genre; the kept works keep their order. */
  lemma FiltrarObrasSpec(f: Filtros, lista: seq<Obra>)
    ensures var r := FiltrarObras(f, lista);
      (forall o :: o in r <==>
         o in lista &&
         (Contains(Lower(o.nome), Lower(f.busca)) || Contains(Lower(o.descricao), Lower(f.busca))) &&
         (f.tipo == Todos || f.tipo == Apenas(o.tipo)) &&
         (f.genero == Todos || f.genero == Apenas(o.genero))) &&
      IsSubsequence(r, lista)
  {
    FilterIsSubsequence((o: Obra) => Passa(o, f), lista);
  }

  /** With an empty search, "todas" and "todos", nothing is filtered out. */
  lemma SemFiltros(lista: seq<Obra>)
    ensures FiltrarObras(Filtros("", Todos, Todos), lista) == lista
  {
    forall i | 0 <= i < |lista| ensures Passa(lista[i], Filtros("", Todos, Todos)) {
      ContainsTrivial(Lower(lista[i].nome));
    }
    FilterKeepsAll((o: Obra) => Passa(o, Filtros("", Todos, Todos)), lista);
  }

  /** Filtering the filtered list changes nothing. */
  lemma FiltrarIdempotente(f: Filtros, lista: seq<Obra>)
    ensures FiltrarObras(f, FiltrarObras(f, lista)) == FiltrarObras(f, lista)
  {
    FilterIdempotent((o: Obra) => Passa(o, f), lista);
  }

  /** `obrasCurtidas`. */
  function ObrasCurtidas(f: Filtros, obras: seq<Obra>): seq<Obra> {
    FiltrarObras(f, Filter((o: Obra) => o.curtida, obras))
  }

  /** `obrasDesejos`. */
  function ObrasDesejos(f: Filtros, obras: seq<Obra>): seq<Obra> {
    FiltrarObras(f, Filter((o: Obra) => o.desejos, obras))
  }

  /** `todasObras`. */
  function TodasObras(f: Filtros, obras: seq<Obra>): seq<Obra> {
    FiltrarObras(f, obras)
  }

  /** The liked tab is the "all" tab restricted to liked works, so every one
      of its works is liked and is shown under "all", in the same order. */
  lemma CurtidasDentroDeTodas(f: Filtros, obras: seq<Obra>)
    ensures ObrasCurtidas(f, obras) == Filter((o: Obra) => o.curtida, TodasObras(f, obras))
    ensures forall o :: o in ObrasCurtidas(f, obras) ==> o.curtida && o in TodasObras(f, obras)
    ensures IsSubsequence(ObrasCurtidas(f, obras), TodasObras(f, obras))
  {
    FilterCommutes((o: Obra) => Passa(o, f), (o: Obra) => o.curtida, obras);
    FilterIsSubsequence((o: Obra) => o.curtida, TodasObras(f, obras));
  }

  /** The wishlist tab is the "all" tab restricted to wishlisted works. */
  lemma DesejosDentroDeTodas(f: Filtros, obras: seq<Obra>)
    ensures ObrasDesejos(f, obras) == Filter((o: Obra) => o.desejos, TodasObras(f, obras))
    ensures forall o :: o in ObrasDesejos(f, obras) ==> o.desejos && o in TodasObras(f, obras)
    ensures IsSubsequence(ObrasDesejos(f, obras), TodasObras(f, obras))
  {
    FilterCommutes((o: Obra) => Passa(o, f), (o: Obra) => o.desejos, obras);
    FilterIsSubsequence((o: Obra) => o.desejos, TodasObras(f, obras));
  }
}
