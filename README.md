# MyShelf — a Dafny model of the catalog logic

MyShelf is a browser application in which a reader catalogs books, films and
series (`Obra`, a "work"), marks them as liked (`curtida`) or wishlisted
(`desejos`), searches external catalogs and looks at statistics about the
collection. It keeps everything in the browser's `localStorage`.

This project models the logic behind those screens:

- `Tipos` (`tipos.dfy`): the data types from `src/types/obra.ts`. They are the
  three kinds of work, the closed set of fourteen genres, the work record and
  the user who owns an ordered list of works.
- `ObrasContext` (`obras_context.dfy`): the catalog store of the React
  application. Each update (add, edit, remove, the two toggles, the profile
  merge and the reset) is a pure function of the previous user. A `Store`
  class with one `usuario` field applies those functions.
- `ExplorarPuro` (`explorar_puro.dfy`): the plain-JavaScript explore page. It
  has a fixed catalog, a kind filter and a search term set by event handlers,
  and a library that refuses a second entry with an id it already holds. The
  page is a `Pagina` class whose methods update its fields.
- `ObrasRenderer` (`obras_renderer.dfy`): the same explore logic embedded in
  a React component, fixed to films or series. Its add button is disabled for
  works the user already owns. The component is a `Renderer` class.
- `Biblioteca` (`biblioteca.dfy`): the library page's search, kind and genre
  filters, applied to all works, to the liked works and to the wishlist.
- `Estatisticas` (`estatisticas.dfy`): the counts per kind and per flag, and
  the genre histogram. The histogram is filled by a loop into an
  insertion-ordered dictionary, then sorted by descending count and cut to
  five entries.
- `Explorar` (`explorar.dfy`): the book search page. It has the blank-query
  guard, maps the search service's items to results, and turns a result into
  the data of a new work. That conversion covers the genre, the 200-character
  description and the `https:` image.
- `Perfil` (`perfil.dfy`): the avatar initials and the profile edit form.
- `Afinidades` (`afinidades.dfy`): the label and colour chosen for an
  affinity score.
- `Seqs` and `Texto` (`seqs.dfy`, `texto.dfy`): the JavaScript array and
  string operations the code relies on. These are `filter`, `slice`,
  `toLowerCase`/`toUpperCase`, `includes`, `trim`, `split`/`join`, `replace`
  with a string pattern, and number-to-string conversion.

Three behaviours of the code are worth stating plainly, because the names
of the operations suggest otherwise:

- The store's `adicionarObra` (src/contexts/ObrasContext.tsx:45-55) has no
  duplicate check: the same data added twice gives two works, and
  `AdicionarSemDeduplicar` states exactly that. The only duplicate checks
  are in the two plain-JavaScript explore pages
  (public/explorar-puro/app.js:402 and
  src/components/JavaScriptObrasRenderer.tsx:212-213).
- `limparDados` (src/contexts/ObrasContext.tsx:95-98) resets the whole user,
  profile included, to the default user; it does not only empty the list of
  works.
- A book description taken from a search result is cut with
  `substring(0, 200)` (src/pages/Explorar.tsx:67), so at most 200 UTF-16
  code units are kept.

## Model

| member | source | states |
|---|---|---|
| Tipos.TiposSaoTres | src/types/obra.ts:1 | There are exactly three kinds, each with its own string literal, and a literal reads back to its kind (both directions). |
| Tipos.PosicaoGenero | src/types/obra.ts:3-17 | Every genre has a position in the list of genres. |
| Tipos.GenerosSaoCatorze | src/types/obra.ts:3-17 | There are exactly fourteen genres, each listed once. |
| Tipos.NomeGeneroRoundTrip | src/types/obra.ts:3-17 | Each genre's literal reads back to that genre. |
| Tipos.GeneroDeNomeInverso | src/types/obra.ts:3-17 | Only a genre's own literal reads back to it. |
| ObrasContext.NovaObra | src/contexts/ObrasContext.tsx:45-50 | A new work carries every supplied field unchanged, plus the generated id and creation date. |
| ObrasContext.IdObraInjetivo | src/contexts/ObrasContext.tsx:48 | Two `obra-<Date.now()>` ids are equal exactly when the clock readings are equal. |
| ObrasContext.AdicionarSemDeduplicar | src/contexts/ObrasContext.tsx:45-55 | Adding the same data twice appends two works after the old ones. Their ids differ exactly when the clock readings differ. |
| ObrasContext.MesclarCampos | src/contexts/ObrasContext.tsx:61 | `{ ...obra, ...obraData }` is, for each of the twelve fields, the old value when the key is absent and the new value when it is present, and it is the only work that is. |
| ObrasContext.EditarPreserva | src/contexts/ObrasContext.tsx:57-64 | The length is kept and works with another id are untouched. In a matching work, each of the twelve fields keeps its value when the partial record omits it and takes the new value when it holds it. An unknown id changes nothing. |
| ObrasContext.EditarComFormulario | src/components/ObraModal.tsx:90-93 | Saving the edit dialog's seven keys sets name, kind, genre, description, image and both flags of each matching work. It keeps the id, external id, creation date, release date and rating. |
| ObrasContext.RemoverSpec | src/contexts/ObrasContext.tsx:66-71 | No remaining work has the id. Every other work stays, in its relative order. An absent id changes nothing. |
| ObrasContext.RemoverUma | src/contexts/ObrasContext.tsx:66-71 | With distinct ids, removing a present id shortens the list by exactly one, and removing an absent id keeps its length. |
| ObrasContext.AlternarCurtidaSpec | src/contexts/ObrasContext.tsx:73-80 | The like toggle flips `curtida` on the matching works only and changes no other field. Applied twice, it restores the list. |
| ObrasContext.AlternarDesejosSpec | src/contexts/ObrasContext.tsx:82-89 | The wishlist toggle flips `desejos` on the matching works only and changes no other field. Applied twice, it restores the list. |
| ObrasContext.MesclarPerfilSpec | src/contexts/ObrasContext.tsx:91-93 | Each of the six user fields takes the update's value when the update carries it and keeps its value otherwise. The update is idempotent, and one carrying the user's own values changes nothing. |
| ObrasContext.Carregar | src/contexts/ObrasContext.tsx:29-39 | A parsed saved user is used as is. When nothing is saved, or the text does not parse, the default user with no works is used. |
| ObrasContext.Store.constructor | src/contexts/ObrasContext.tsx:20-39 | The store starts from the loaded user. |
| ObrasContext.Store.AdicionarObra | src/contexts/ObrasContext.tsx:45-55 | The new work is appended at the end. The old works are a prefix of the new list, and the profile is untouched. |
| ObrasContext.Store.EditarObra | src/contexts/ObrasContext.tsx:57-64 | The works become the edited list, and the profile is untouched. |
| ObrasContext.Store.RemoverObra | src/contexts/ObrasContext.tsx:66-71 | The works become the filtered list, no work keeps the id, and the profile is untouched. |
| ObrasContext.Store.ToggleCurtida | src/contexts/ObrasContext.tsx:73-80 | The works become the like-toggled list, and the profile is untouched. |
| ObrasContext.Store.ToggleDesejos | src/contexts/ObrasContext.tsx:82-89 | The works become the wishlist-toggled list, and the profile is untouched. |
| ObrasContext.Store.AtualizarPerfil | src/contexts/ObrasContext.tsx:91-93 | The user becomes the old user merged with the partial record. |
| ObrasContext.Store.LimparDados | src/contexts/ObrasContext.tsx:95-98 | The user becomes the default user, whose list of works is empty. |
| ExplorarPuro.ObrasFiltradasSpec | public/explorar-puro/app.js:328-332 | A catalog work is listed exactly when its kind passes the filter and its lower-cased title contains the lower-cased term. Catalog order is kept. |
| ExplorarPuro.SemFiltroMostraTudo | public/explorar-puro/app.js:328-332 | With "todos" and an empty term the whole catalog is listed. |
| ExplorarPuro.Entrada | public/explorar-puro/app.js:404-413 | A library entry is the catalog work plus the time of addition. |
| ExplorarPuro.AplicarPreservaIds | public/explorar-puro/app.js:400-434 | One add or remove keeps library ids pairwise distinct. |
| ExplorarPuro.FilterPreservaIds | public/explorar-puro/app.js:434 | Filtering a library with distinct ids keeps them distinct. |
| ExplorarPuro.IdsDistintosSempre | public/explorar-puro/app.js:400-434 | Any sequence of adds and removes that starts from distinct ids keeps them distinct. |
| ExplorarPuro.Pagina.constructor | public/explorar-puro/app.js:471-476 | The page starts with the catalog, the saved library (or an empty one), filter "todos" and an empty term. |
| ExplorarPuro.Pagina.AdicionarNaBiblioteca | public/explorar-puro/app.js:392-423 | A work already in the library changes nothing. Otherwise exactly one entry is appended. Afterwards the id is present, distinct ids stay distinct, and the filter and term are unchanged. |
| ExplorarPuro.Pagina.RemoverDaBiblioteca | public/explorar-puro/app.js:429-434 | No entry keeps the id, the others keep their order, and an absent id changes nothing. Distinct ids stay distinct. |
| ExplorarPuro.Pagina.DefinirTermoBusca | public/explorar-puro/app.js:489-491 | Only the search term changes. |
| ExplorarPuro.Pagina.DefinirFiltro | public/explorar-puro/app.js:504 | Only the kind filter changes. |
| ObrasRenderer.Payload | src/components/JavaScriptObrasRenderer.tsx:169-178 | `id` and `apiId` are the catalog id as a string, and both read back to that id. The year reads back from `releaseDate`. Title, kind, description, image and rating are copied. |
| ObrasRenderer.FiltroDoTipoAtivo | src/components/JavaScriptObrasRenderer.tsx:93 | The filter is films exactly when the active kind is "filme", and series otherwise. |
| ObrasRenderer.Renderer.JaAdicionadaPeloPayload | src/components/JavaScriptObrasRenderer.tsx:212-213 | A user work stored with a catalog work's payload `apiId` and kind marks that catalog work as added. When it is the only user work and the local library is empty, it marks exactly the catalog works with the same id and kind. |
| ObrasRenderer.ListaSemLivros | src/components/JavaScriptObrasRenderer.tsx:244-248 | The renderer's explore list never holds a book, only the kind the active filter names. |
| ObrasRenderer.Renderer.constructor | src/components/JavaScriptObrasRenderer.tsx:92-94 | The local library starts empty, and the filter and term follow the props. |
| ObrasRenderer.Renderer.Efeito | src/components/JavaScriptObrasRenderer.tsx:290-314 | The filter and term follow the new props. A readable saved library replaces the local one, and an unreadable one is ignored. |
| ObrasRenderer.Renderer.CliqueAdicionar | src/components/JavaScriptObrasRenderer.tsx:167-186 | An already-added work sends nothing and changes nothing. Otherwise the payload is sent and exactly one entry is appended. Afterwards the work counts as added, and distinct ids stay distinct. |
| ObrasRenderer.Renderer.CliqueRemover | src/components/JavaScriptObrasRenderer.tsx:197-200 | No local entry keeps the id and the others keep their order. Distinct ids stay distinct. |
| Biblioteca.FiltrarObrasSpec | src/pages/Biblioteca.tsx:51-59 | A work is kept exactly when the term occurs in its lower-cased name or description and it passes the kind and genre filters. Order is kept. |
| Biblioteca.SemFiltros | src/pages/Biblioteca.tsx:51-59 | An empty term with "todas" and "todos" keeps every work. |
| Biblioteca.FiltrarIdempotente | src/pages/Biblioteca.tsx:51-59 | Filtering twice is filtering once. |
| Biblioteca.CurtidasDentroDeTodas | src/pages/Biblioteca.tsx:61-63 | The liked tab is the "all" tab restricted to liked works, in the same order. |
| Biblioteca.DesejosDentroDeTodas | src/pages/Biblioteca.tsx:61-63 | The wishlist tab is the "all" tab restricted to wishlisted works, in the same order. |
| Estatisticas.EstatisticasConsistentes | src/pages/Estatisticas.tsx:11-17 | The kind counts add up to the number of works, and neither flag count exceeds it. |
| Estatisticas.Incrementar | src/pages/Estatisticas.tsx:22 | One increment adds 1 to the value of its genre only and adds the genre as a key if it was missing. It keeps keys distinct and counts positive. |
| Estatisticas.TemChaveIndice | src/pages/Estatisticas.tsx:20-23 | Every stored entry's genre is a key. |
| Estatisticas.ValorDeEntrada | src/pages/Estatisticas.tsx:20-23 | With distinct keys, a key's value is its entry's count. |
| Estatisticas.ValorPositivo | src/pages/Estatisticas.tsx:20-23 | With positive counts, a genre is a key exactly when its value is at least 1. |
| Estatisticas.SomaMinima | src/pages/Estatisticas.tsx:20-23 | With positive counts, the sum is at least the number of entries. |
| Estatisticas.ContarGeneros | src/pages/Estatisticas.tsx:20-23 | Each genre's value is the number of works of that genre. Exactly the genres that occur are keys, each once, with positive counts. The counts add up to the number of works. |
| Estatisticas.Inserir | src/pages/Estatisticas.tsx:26 | Insertion adds exactly one entry and keeps every other one (as a multiset). |
| Estatisticas.InserirOrdenado | src/pages/Estatisticas.tsx:26 | Inserting into a descending sequence keeps it descending. |
| Estatisticas.InserirLimitado | src/pages/Estatisticas.tsx:26 | A bound on the inserted entry and on the sequence bounds the result. |
| Estatisticas.OrdenarDesc | src/pages/Estatisticas.tsx:25-26 | The sort returns a permutation of its input in non-increasing order of count. |
| Estatisticas.TemChaveChaves | src/pages/Estatisticas.tsx:20-23 | A genre is a key of the histogram exactly when it is in its key set. |
| Estatisticas.ChavesContam | src/pages/Estatisticas.tsx:20-23 | With distinct keys there are as many keys as entries. |
| Estatisticas.ChavesDistintasIndices | src/pages/Estatisticas.tsx:20-23 | Distinct keys means no two positions hold the same genre. |
| Estatisticas.EntradaDaChave | src/pages/Estatisticas.tsx:20-23 | Every key is stored at some position. |
| Estatisticas.InserirChaves | src/pages/Estatisticas.tsx:26 | Insertion adds the inserted entry's genre to the keys, and keeps keys distinct when that genre is new. |
| Estatisticas.OrdenarChaves | src/pages/Estatisticas.tsx:26 | Sorting keeps the key set and keeps keys distinct. |
| Estatisticas.PrefixoChaves | src/pages/Estatisticas.tsx:27 | A prefix keeps a subset of the keys and keeps them distinct. |
| Estatisticas.CorteOrdenado | src/pages/Estatisticas.tsx:27 | The kept prefix of a sorted sequence is part of it, and nothing dropped counts more than something kept. |
| Estatisticas.CorteDoHistograma | src/pages/Estatisticas.tsx:25-27 | The first five of the sorted histogram are sorted and part of the histogram, and nothing dropped counts more than something kept. |
| Estatisticas.ChavesDoCorte | src/pages/Estatisticas.tsx:25-27 | The first five of the sorted histogram keep its keys distinct. |
| Estatisticas.GenerosOrdenados | src/pages/Estatisticas.tsx:25-27 | At most five entries (all of them when there are five or fewer), in non-increasing order. Each entry is taken from the histogram at most as often as it occurs there, so distinct keys stay distinct. No dropped entry counts more than a kept one. |
| Estatisticas.UmaEntradaPorGenero | src/pages/Estatisticas.tsx:20-23 | A histogram with distinct keys that are exactly the occurring genres has one entry per occurring genre. |
| Estatisticas.ForaDoCorte | src/pages/Estatisticas.tsx:25-27 | A stored genre that did not make the top five has no more works than any genre shown. |
| Estatisticas.ContagensNoCorte | src/pages/Estatisticas.tsx:20-27 | Entries taken from the histogram carry their genre's true count, which is at least 1. |
| Estatisticas.Ranking | src/pages/Estatisticas.tsx:20-27 | The top five holds as many genres as occur, up to five, each once. They are in non-increasing order, and each carries its true count of works, which is at least 1. No occurring genre left out has more works than a genre shown. No works means no ranking. |
| Explorar.DeveBuscarSeNaoBranco | src/pages/Explorar.tsx:28-31 | A query is searched exactly when it has a character that is not white space. |
| Explorar.Resultados | src/pages/Explorar.tsx:41-51 | No `items` gives no results. Otherwise there is one result per item, in order, and each item can be read back from its result. |
| Explorar.ResultadoItemInversos | src/pages/Explorar.tsx:11-18 | Converting an item to a result and back loses nothing, in both directions. |
| Explorar.DescricaoLivro | src/pages/Explorar.tsx:67 | A non-empty description gives its first min(length, 200) characters. A missing or empty one gives the fixed text. The result is never empty and never longer than 200. |
| Explorar.ImagemLivro | src/pages/Explorar.tsx:68 | There is no image exactly when there is no thumbnail. Otherwise the image is the thumbnail with its first `http:` replaced by `https:`. |
| Explorar.ImagemHttps | src/pages/Explorar.tsx:68 | A thumbnail starting with `http:` becomes the same address with `https:`. |
| Explorar.GeneroLivroComoEscrito | src/pages/Explorar.tsx:66 | As written: the first non-empty category, whatever string it is, and "Ficção" otherwise. |
| Explorar.GeneroComoEscritoForaDoTipo | src/pages/Explorar.tsx:66 | The category "Fiction" is stored as a genre that is none of the fourteen. |
| Explorar.GeneroLivro | src/pages/Explorar.tsx:66 | Corrected: the value agrees with the page whenever the page's value is a genre, and is "Ficção" otherwise and when there are no categories. |
| Explorar.LivroParaObra | src/pages/Explorar.tsx:62-71 | The new work is a book, not liked and wishlisted, with the title as name. It takes the description and image rules above and the corrected genre (`GeneroLivro`, not the page's unchecked cast). No external id, release date or rating is set. |
| Perfil.Primeira | src/pages/Perfil.tsx:48-49 | `n[0]` joins as "" for an empty word, and as the first letter otherwise. |
| Perfil.Iniciais | src/pages/Perfil.tsx:46-51 | The initials are at most two characters. |
| Perfil.IniciaisDeDuasPalavras | src/pages/Perfil.tsx:46-51 | A name of two or more space-separated words has as initials the upper-cased first letters of its first two words. |
| Perfil.SplitDePalavras | src/pages/Perfil.tsx:46-47 | Words joined by single spaces split back into the same words. |
| Perfil.IniciaisDePartes | src/pages/Perfil.tsx:46-51 | A name whose first two parts are not empty takes its initials from them. |
| Perfil.PrimeirasDeDuas | src/pages/Perfil.tsx:48-51 | The first two joined letters, upper-cased, come from the first two words. |
| Perfil.IniciaisDeUmaPalavra | src/pages/Perfil.tsx:46-51 | A one-word name has one initial, its upper-cased first letter. |
| Perfil.SoEspacos | src/pages/Perfil.tsx:46-49 | Splitting a run of spaces gives only empty words, which contribute no letters. |
| Perfil.IniciaisDeEspacos | src/pages/Perfil.tsx:46-51 | An empty name, or one of spaces only, has empty initials. |
| Perfil.FormularioInicial | src/pages/Perfil.tsx:27-32 | The form copies name and e-mail, and shows a missing bio or image as "". |
| Perfil.SalvarFormulario | src/pages/Perfil.tsx:34-38 | Saving keeps the id and works and stores the four fields. Saving unedited changes only a missing bio or image into "". |
| Afinidades.CorAfinidade | src/pages/Afinidades.tsx:73-77 | Green from 75, blue from 60 to below 75, purple below 60. |
| Afinidades.RotuloAfinidade | src/pages/Afinidades.tsx:79-83 | "Alta afinidade" from 75, "Boa afinidade" from 60 to below 75, "Afinidade moderada" below 60. |
| Afinidades.BandaDe | src/pages/Afinidades.tsx:73-83 | The three thresholds split the scores into three half-open bands (each an if-and-only-if). |
| Afinidades.MesmaBanda | src/pages/Afinidades.tsx:73-83 | Label and colour are both chosen by the band, so two scores share a label exactly when they share a colour. |
| Afinidades.BandasMonotonas | src/pages/Afinidades.tsx:73-83 | A higher score never gets a lower band. |
| Seqs.Filter | src/pages/Biblioteca.tsx:52 | `Array.prototype.filter` keeps exactly the elements that satisfy the predicate and is no longer than its input. |
| Seqs.FilterIsSubsequence | src/contexts/ObrasContext.tsx:69 | A filtered array keeps the original order. |
| Seqs.FilterKeepsAll | src/contexts/ObrasContext.tsx:69 | Filtering returns the input exactly when every element passes. |
| Seqs.FilterIdempotent | src/pages/Biblioteca.tsx:52 | Filtering twice by one predicate is filtering once. |
| Seqs.FilterCommutes | src/pages/Biblioteca.tsx:61-63 | Two filters commute. |
| Seqs.FilterSplits | src/pages/Estatisticas.tsx:12-14 | The elements that pass and those that fail add up to the whole. |
| Seqs.FilterDropsOne | src/contexts/ObrasContext.tsx:69 | An element that fails makes the result strictly shorter. |
| Seqs.FilterAppend | src/pages/Estatisticas.tsx:21-23 | Filtering an array with one more element adds that element exactly when it passes. |
| Seqs.Take | src/pages/Estatisticas.tsx:27 | `slice(0, n)` is the prefix of length min(n, length). |
| Texto.Lower | src/pages/Biblioteca.tsx:53-54 | `toLowerCase` maps every character and keeps the length. |
| Texto.Upper | src/pages/Perfil.tsx:50 | `toUpperCase` maps every character and keeps the length. |
| Texto.LowerIsIdempotent | src/pages/Biblioteca.tsx:53-54 | Lower-casing twice is lower-casing once. |
| Texto.ContainsTrivial | src/pages/Biblioteca.tsx:53-54 | Every string includes "" and itself. |
| Texto.TrimStart | src/pages/Explorar.tsx:28 | Only leading white space is removed, and all of it. |
| Texto.TrimEnd | src/pages/Explorar.tsx:28 | Only trailing white space is removed, and all of it. |
| Texto.TrimEmptyIffBlank | src/pages/Explorar.tsx:28 | `trim()` is empty exactly when every character is white space. |
| Texto.Split | src/pages/Perfil.tsx:47 | `split` always returns at least one part. |
| Texto.JoinSplit | src/pages/Perfil.tsx:47 | Joining the parts of a split with its separator gives back the string. |
| Texto.SplitJoin | src/pages/Perfil.tsx:47 | Parts without the separator, once joined, split back into the same parts. |
| Texto.SplitPiece | src/pages/Perfil.tsx:47 | A separator-free prefix becomes the first part of a split. |
| Texto.IndexOf | src/pages/Explorar.tsx:68 | A found position lies within the string. |
| Texto.IndexOfFound | src/pages/Explorar.tsx:68 | A found position is the first occurrence. |
| Texto.IndexOfAbsent | src/pages/Explorar.tsx:68 | No position found means the pattern does not occur. |
| Texto.IndexOfIsFirst | src/pages/Explorar.tsx:68 | The search finds exactly the first occurrence, and finds nothing exactly when there is none. |
| Texto.ReplaceFirst | src/pages/Explorar.tsx:68 | `replace` with a string pattern changes only the first occurrence, and leaves a string without one unchanged. |
| Texto.NatToString | src/contexts/ObrasContext.tsx:48 | A decimal numeral is non-empty and made of digits. |
| Texto.ParseNatToString | src/contexts/ObrasContext.tsx:48 | A numeral reads back to its number. |
| Texto.IntToStringRoundTrip | src/components/JavaScriptObrasRenderer.tsx:170-176 | `toString` of an integer reads back to the integer. |
| Texto.IntToStringInjective | src/components/JavaScriptObrasRenderer.tsx:170-176 | Different integers get different strings. |

## Left out

- Reading and writing `localStorage`, and `JSON.parse`/`JSON.stringify`: a read is a parameter (`Salvo`, or an `Option` on the plain page), and writes are not modelled. This includes the plain page's save after each change.
- ObrasRenderer.Renderer.Efeito: in src/components/JavaScriptObrasRenderer.tsx:316-319 the effect's cleanup saves the local library before every re-run of the effect (when `tipoAtivo`, `busca` or `obrasUsuario` change) as well as on unmount, so the library the next run loads is normally the one just saved. The model takes the saved library as a parameter and does not tie it to that save.
- `JSON.parse` throwing on unreadable text in `public/explorar-puro/app.js:474`, which has no `try`: the `Pagina` constructor receives an already-parsed library or none.
- `fetch` to the book search service, the loading and "searched" flags, and the error toasts: the reply's `items` is a parameter of `Resultados`.
- Toasts, `console` messages, the card animation delay and all DOM construction, because they are presentation only.
- `Date.now()` and `new Date().toISOString()`: they are parameters of the operations that use them.
- What the React parent does with the renderer's `onAdicionar` payload is not part of this model; only the payload itself is.
- The catalog contents of the explore pages, the affinity data list and the sample data: they are fixed data, not logic.
- The canvas pie chart and the percentage arithmetic of the statistics page: these use floating-point drawing.
- Ratings are kept as `real` values, not IEEE doubles.
- Authentication, routing, layout, the work card and the work edit dialog are not part of this model.
- The `VolumeInfo` fields the search page never reads.
- Strings are sequences of Unicode scalar values, while JavaScript indexes strings by UTF-16 code units; Explorar.DescricaoLivro and Perfil.Primeira, listed next, differ from the source only on text outside the Basic Multilingual Plane (emoji, for example).
- Explorar.DescricaoLivro: the bound of 200 counts characters, where `substring(0, 200)` counts UTF-16 code units; a description of 150 emoji keeps 100 of them on the page and all 150 in the model.
- Perfil.Primeira: gives the whole first character of a word, where `n[0]` gives its first UTF-16 code unit, a lone surrogate for a word that starts with an emoji.
- Explorar.LivroParaObra: uses the corrected genre `GeneroLivro`; for a first category that is none of the fourteen genres the page stores that category instead (see Findings).
- Texto.Lower: maps only ASCII letters, not the full Unicode case mapping of `toLowerCase`.
- Texto.Upper: maps only ASCII letters, not the full Unicode case mapping of `toUpperCase`.
- Perfil.Iniciais: inherits the ASCII-only upper-casing, and `slice(0, 2)` keeps two characters where the source keeps two UTF-16 code units. Its contract states only the length bound; the lemmas beside it state what the initials are.
- Estatisticas.OrdenarDesc: the insertion sort is stable, as `Array.prototype.sort` is, but the contract states only order and permutation, not stability.
- Estatisticas.Ranking: keys of the histogram are genres; a work whose genre is not one of the fourteen (see Findings) cannot be represented in it.

## Findings

| source | as written | input that shows it | evidently intended | confidence | as-written member | corrected member |
|---|---|---|---|---|---|---|
| src/pages/Explorar.tsx:66 | The genre of a new book is the first category the search service returns, cast to the genre type without any check. | `categories = ["Fiction"]` stores the genre "Fiction", which is none of the fourteen genres, so the genre filter never selects it, and the statistics count it under a key "Fiction" that is none of the fourteen genres. | A category that names a genre becomes that genre, and anything else falls back to "Ficção". | not executed | Explorar.GeneroLivroComoEscrito, Explorar.GeneroComoEscritoForaDoTipo | Explorar.GeneroLivro |
