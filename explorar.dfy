/** The book search page (src/pages/Explorar.tsx): the guard against blank
    queries, the mapping of the search service's items into results, and
    the conversion of a result into the data of a new work. */
module Explorar {
  import opened Seqs
  import opened Texto
  import opened Tipos
  import opened ObrasContext

  /** A search runs only when the query is not blank: `!busca.trim()` stops it. */
  predicate DeveBuscar(busca: string) {
    Trim(busca) != ""
  }

  /** A query is searched exactly when some character is not white space. */
  lemma DeveBuscarSeNaoBranco(busca: string)
    ensures DeveBuscar(busca) <==> exists i :: 0 <= i < |busca| && !IsWhiteSpace(busca[i])
  {
    TrimEmptyIffBlank(busca);
  }

  /** The fields of a search item that the page reads. */
  datatype ImageLinks = ImageLinks(thumbnail: Option<string>)

  datatype VolumeInfo = VolumeInfo(
    title: string,
    authors: Option<seq<string>>,
    description: Option<string>,
    imageLinks: Option<ImageLinks>,
    categories: Option<seq<string>>)

  datatype Item = Item(id: string, volumeInfo: VolumeInfo)

  /** `BookResult`. */
  datatype BookResult = BookResult(
    id: string,
    title: string,
    authors: Option<seq<string>>,
    description: Option<string>,
    imageLinks: Option<ImageLinks>,
    categories: Option<seq<string>>)

  function ParaResultado(item: Item): BookResult {
    BookResult(item.id, item.volumeInfo.title, item.volumeInfo.authors,
               item.volumeInfo.description, item.volumeInfo.imageLinks, item.volumeInfo.categories)
  }

  /** The item a result was read from. */
  function ParaItem(b: BookResult): Item {
    Item(b.id, VolumeInfo(b.title, b.authors, b.description, b.imageLinks, b.categories))
  }

  /** `data.items.map(...)`, or no results when the reply has no `items`:
      one result per item, in the items' order, and every item can be read
      back from its result. */
  function Resultados(items: Option<seq<Item>>): (r: seq<BookResult>)
    ensures items.None? ==> r == []
    ensures items.Some? ==> |r| == |items.value|
    ensures items.Some? ==> forall i :: 0 <= i < |r| ==> ParaItem(r[i]) == items.value[i]
  {
    match items
    case None => []
    case Some(s) => seq(|s|, i requires 0 <= i < |s| => ParaResultado(s[i]))
  }

  /** Converting back and forth loses nothing. */
  lemma ResultadoItemInversos(item: Item, b: BookResult)
    ensures ParaItem(ParaResultado(item)) == item
    ensures ParaResultado(ParaItem(b)) == b
  {
  }

  const SemDescricao: string := "Sem descrição disponível"

  /** `book.description?.substring(0, 200) || "Sem descrição disponível"`:
      the first 200 characters of a non-empty description, the fixed text
      otherwise; never longer than 200 characters. */
  function DescricaoLivro(description: Option<string>): (r: string)
    ensures |r| <= 200 && r != ""
    ensures description.Some? && description.value != "" ==>
      r <= description.value && |r| == if |description.value| <= 200 then |description.value| else 200
    ensures description.None? || description.value == "" ==> r == SemDescricao
  {
    match description
    case Some(d) => if Take(d, 200) != "" then Take(d, 200) else SemDescricao
    case None => SemDescricao
  }

  /** `book.imageLinks?.thumbnail?.replace("http:", "https:")`: absent
      exactly when there is no thumbnail. */
  function ImagemLivro(links: Option<ImageLinks>): (r: Option<string>)
    ensures r.None? <==> links.None? || links.value.thumbnail.None?
    ensures r.Some? ==> r.value == ReplaceFirst(links.value.thumbnail.value, "http:", "https:")
  {
    match links
    case None => None
    case Some(l) =>
      match l.thumbnail
      case None => None
      case Some(t) => Some(ReplaceFirst(t, "http:", "https:"))
  }

  /** An `http:` address is served over `https:` instead. */
  lemma {:induction false} ImagemHttps(resto: string)
    ensures ImagemLivro(Some(ImageLinks(Some("http:" + resto)))) == Some("https:" + resto)
  {
    var t := "http:" + resto;
    assert t[0..] == t && t[..0] == [] && t[5..] == resto;
    assert FirstOccurrence(t, "http:", 0);
    assert ReplaceFirst(t, "http:", "https:") == "https:" + resto;
  }

  /** `book.categories?.[0]`: absent without categories or with an empty list. */
  function PrimeiraCategoria(categories: Option<seq<string>>): Option<string> {
    match categories
    case Some(cs) => if cs != [] then Some(cs[0]) else None
    case None => None
  }

  /** The genre as the page writes it: the first category, whatever string it
      is, when present and non-empty, "Ficção" otherwise. The value is cast
      to the genre type without any check. */
  function GeneroLivroComoEscrito(categories: Option<seq<string>>): (r: string)
    ensures r != ""
    ensures PrimeiraCategoria(categories).Some? && PrimeiraCategoria(categories).value != "" ==>
      r == PrimeiraCategoria(categories).value
    ensures PrimeiraCategoria(categories).None? || PrimeiraCategoria(categories).value == "" ==>
      r == NomeGenero(Ficcao)
  {
    var c := PrimeiraCategoria(categories);
    if c.Some? && c.value != "" then c.value else "Ficção"
  }

  /** A book whose first category is "Fiction" is stored with the genre
      "Fiction", which is none of the fourteen genres. */
  lemma GeneroComoEscritoForaDoTipo()
    ensures GeneroLivroComoEscrito(Some(["Fiction"])) == "Fiction"
    ensures GeneroDeNome(GeneroLivroComoEscrito(Some(["Fiction"]))).None?
  {
  }

  /** The genre as intended: the first category when it names one of the
      fourteen genres, "Ficção" otherwise. It agrees with the page whenever
      the page's value is a genre. */
  function GeneroLivro(categories: Option<seq<string>>): (g: Genero)
    ensures GeneroDeNome(GeneroLivroComoEscrito(categories)).Some? ==>
      NomeGenero(g) == GeneroLivroComoEscrito(categories)
    ensures GeneroDeNome(GeneroLivroComoEscrito(categories)).None? ==> g == Ficcao
    ensures PrimeiraCategoria(categories).None? ==> g == Ficcao
  {
    match GeneroDeNome(GeneroLivroComoEscrito(categories))
    case Some(h) =>
      GeneroDeNomeInverso(GeneroLivroComoEscrito(categories), h);
      h
    case None => Ficcao
  }

  /** The data `adicionarNaBiblioteca` hands to the store: a book, not liked,
      wished for, with the title as name and the description, genre and image
      rules above; nothing else is set. */
  function LivroParaObra(book: BookResult): (d: DadosObra)
    ensures d.tipo == Livro && !d.curtida && d.desejos
    ensures d.nome == book.title
    ensures d.descricao == DescricaoLivro(book.description) && |d.descricao| <= 200
    ensures d.genero == GeneroLivro(book.categories)
    ensures d.imagem == ImagemLivro(book.imageLinks)
    ensures d.apiId.None? && d.dataLancamento.None? && d.avaliacao.None?
  {
    DadosObra(None, book.title, Livro, GeneroLivro(book.categories), DescricaoLivro(book.description),
              ImagemLivro(book.imageLinks), false, true, None, None)
  }
}
