/** The catalog store of the React application
    (src/contexts/ObrasContext.tsx): one `Usuario` whose works are added,
    edited, removed and toggled, a profile merge, and a reset to the
    default user. Every operation replaces the user with a pure function
    of the previous one; those functions are defined first and the store
    class applies them. */
module ObrasContext {
  import opened Seqs
  import opened Texto
  import opened Tipos

  /** `Omit<Obra, "id" | "dataCriacao">`: what a caller supplies to add a work. */
  datatype DadosObra = DadosObra(
    apiId: Option<string>,
    nome: string,
    tipo: TipoObra,
    genero: Genero,
    descricao: string,
    imagem: Option<string>,
    curtida: bool,
    desejos: bool,
    dataLancamento: Option<string>,
    avaliacao: Option<real>)

  /** The supplied part of a work: everything but `id` and `dataCriacao`. */
  function DadosDe(o: Obra): DadosObra {
    DadosObra(o.apiId, o.nome, o.tipo, o.genero, o.descricao, o.imagem,
              o.curtida, o.desejos, o.dataLancamento, o.avaliacao)
  }

  /** `{ ...obraData, id, dataCriacao }`: the new work carries every supplied
      field unchanged plus the generated identity. */
  function NovaObra(d: DadosObra, id: string, dataCriacao: string): (o: Obra)
    ensures o.id == id && o.dataCriacao == dataCriacao
    ensures DadosDe(o) == d
  {
    Obra(id, d.apiId, d.nome, d.tipo, d.genero, d.descricao, d.imagem,
         d.curtida, d.desejos, dataCriacao, d.dataLancamento, d.avaliacao)
  }

  /** `obra-${Date.now()}`, the clock reading in milliseconds being a parameter. */
  function IdObra(agora: nat): string {
    "obra-" + NatToString(agora)
  }

  /** Two additions get the same id exactly when they read the same clock value. */
  lemma IdObraInjetivo(a: nat, b: nat)
    ensures IdObra(a) == IdObra(b) <==> a == b
  {
    if IdObra(a) == IdObra(b) {
      assert IdObra(a)[5..] == NatToString(a);
      assert IdObra(b)[5..] == NatToString(b);
      IntToStringInjective(a, b);
    }
  }

  /** `[...prev.obras, novaObra]`: there is no duplicate check, so the same
      data added twice gives two works, distinguishable only by the clock. */
  lemma AdicionarSemDeduplicar(obras: seq<Obra>, d: DadosObra, t1: nat, t2: nat, c1: string, c2: string)
    ensures var r := obras + [NovaObra(d, IdObra(t1), c1)] + [NovaObra(d, IdObra(t2), c2)];
      |r| == |obras| + 2 && r[..|obras|] == obras &&
      DadosDe(r[|obras|]) == d && DadosDe(r[|obras| + 1]) == d &&
      (r[|obras|].id == r[|obras| + 1].id <==> t1 == t2)
  {
    IdObraInjetivo(t1, t2);
  }

  // ------------------------------------------------------------------ edit

  /** `Partial<Obra>`: each field absent or present. */
  datatype ParcialObra = ParcialObra(
    id: Campo<string>,
    apiId: Campo<Option<string>>,
    nome: Campo<string>,
    tipo: Campo<TipoObra>,
    genero: Campo<Genero>,
    descricao: Campo<string>,
    imagem: Campo<Option<string>>,
    curtida: Campo<bool>,
    desejos: Campo<bool>,
    dataCriacao: Campo<string>,
    dataLancamento: Campo<Option<string>>,
    avaliacao: Campo<Option<real>>)

  /** `{ ...obra, ...obraData }`: the fields present in `p` overwrite. */
  function Mesclar(o: Obra, p: ParcialObra): Obra {
    Obra(p.id.Sobre(o.id), p.apiId.Sobre(o.apiId), p.nome.Sobre(o.nome),
         p.tipo.Sobre(o.tipo), p.genero.Sobre(o.genero), p.descricao.Sobre(o.descricao),
         p.imagem.Sobre(o.imagem), p.curtida.Sobre(o.curtida), p.desejos.Sobre(o.desejos),
         p.dataCriacao.Sobre(o.dataCriacao), p.dataLancamento.Sobre(o.dataLancamento),
         p.avaliacao.Sobre(o.avaliacao))
  }

  /** Field by field, `r` is `o` with the keys present in `p` written over it. */
  predicate MescladaDe(o: Obra, p: ParcialObra, r: Obra) {
    Aplica(p.id, o.id, r.id) && Aplica(p.apiId, o.apiId, r.apiId) &&
    Aplica(p.nome, o.nome, r.nome) && Aplica(p.tipo, o.tipo, r.tipo) &&
    Aplica(p.genero, o.genero, r.genero) && Aplica(p.descricao, o.descricao, r.descricao) &&
    Aplica(p.imagem, o.imagem, r.imagem) && Aplica(p.curtida, o.curtida, r.curtida) &&
    Aplica(p.desejos, o.desejos, r.desejos) && Aplica(p.dataCriacao, o.dataCriacao, r.dataCriacao) &&
    Aplica(p.dataLancamento, o.dataLancamento, r.dataLancamento) &&
    Aplica(p.avaliacao, o.avaliacao, r.avaliacao)
  }

  /** The spread is the one work that is merged field by field. */
  lemma MesclarCampos(o: Obra, p: ParcialObra)
    ensures MescladaDe(o, p, Mesclar(o, p))
    ensures forall r :: MescladaDe(o, p, r) ==> r == Mesclar(o, p)
  {
  }

  /** `prev.obras.map(obra => obra.id === id ? { ...obra, ...obraData } : obra)`. */
  function Editar(obras: seq<Obra>, id: string, p: ParcialObra): (r: seq<Obra>)
  {
    seq(|obras|, i requires 0 <= i < |obras| =>
      if obras[i].id == id then Mesclar(obras[i], p) else obras[i])
  }

  /** Editing keeps the length; works with another id are untouched; in a
      matching work every field `p` leaves out keeps its value and every
      field `p` holds takes the new value; an unknown id changes nothing. */
  lemma EditarPreserva(obras: seq<Obra>, id: string, p: ParcialObra)
    ensures var r := Editar(obras, id, p);
      |r| == |obras| &&
      (forall i :: 0 <= i < |obras| && obras[i].id != id ==> r[i] == obras[i]) &&
      (forall i :: 0 <= i < |obras| && obras[i].id == id ==> MescladaDe(obras[i], p, r[i])) &&
      ((forall i :: 0 <= i < |obras| ==> obras[i].id != id) ==> r == obras)
  {
    forall i | 0 <= i < |obras| && obras[i].id == id ensures MescladaDe(obras[i], p, Editar(obras, id, p)[i]) {
      MesclarCampos(obras[i], p);
    }
  }

  /** The object the work dialog submits (src/components/ObraModal.tsx:90-93):
      seven keys, the image always a string. */
  datatype FormularioObra = FormularioObra(
    nome: string,
    tipo: TipoObra,
    genero: Genero,
    descricao: string,
    imagem: string,
    curtida: bool,
    desejos: bool)

  /** The dialog's object as a partial work: `id`, `apiId`, `dataCriacao`,
      `dataLancamento` and `avaliacao` are absent keys. */
  function ParcialDoModal(f: FormularioObra): ParcialObra {
    ParcialObra(Manter, Manter, Definir(f.nome), Definir(f.tipo), Definir(f.genero),
                Definir(f.descricao), Definir(Some(f.imagem)), Definir(f.curtida), Definir(f.desejos),
                Manter, Manter, Manter)
  }

  /** Saving the library page's edit dialog (src/pages/Biblioteca.tsx:22-24)
      sets the seven form fields of each matching work and keeps its id,
      external id, creation date, release date and rating. The external id
      survives, so the renderer still recognises an edited work as added. */
  lemma EditarComFormulario(obras: seq<Obra>, id: string, f: FormularioObra)
    ensures var r := Editar(obras, id, ParcialDoModal(f));
      |r| == |obras| &&
      forall i :: 0 <= i < |obras| && obras[i].id == id ==>
        r[i].id == id && r[i].apiId == obras[i].apiId && r[i].dataCriacao == obras[i].dataCriacao &&
        r[i].dataLancamento == obras[i].dataLancamento && r[i].avaliacao == obras[i].avaliacao &&
        r[i].nome == f.nome && r[i].tipo == f.tipo && r[i].genero == f.genero &&
        r[i].descricao == f.descricao && r[i].imagem == Some(f.imagem) &&
        r[i].curtida == f.curtida && r[i].desejos == f.desejos
  {
  }

  // ---------------------------------------------------------------- remove

  /** `prev.obras.filter(obra => obra.id !== id)`. */
  function Remover(obras: seq<Obra>, id: string): seq<Obra> {
    Filter((o: Obra) => o.id != id, obras)
  }

  /** After removal no work has the id, every other work is still there in
      the same relative order, and an absent id leaves the list unchanged. */
  lemma RemoverSpec(obras: seq<Obra>, id: string)
    ensures var r := Remover(obras, id);
      (forall o :: o in r ==> o.id != id) &&
      (forall o :: o in obras && o.id != id ==> o in r) &&
      IsSubsequence(r, obras) &&
      ((forall i :: 0 <= i < |obras| ==> obras[i].id != id) ==> r == obras)
  {
    FilterIsSubsequence((o: Obra) => o.id != id, obras);
    FilterKeepsAll((o: Obra) => o.id != id, obras);
  }

  /** When ids are distinct, removing a present id shortens the list by
      exactly one; removing an absent id keeps the length. */
  lemma {:induction false} RemoverUma(obras: seq<Obra>, id: string)
    requires forall i, j :: 0 <= i < j < |obras| ==> obras[i].id != obras[j].id
    ensures |Remover(obras, id)| ==
      if exists k :: 0 <= k < |obras| && obras[k].id == id then |obras| - 1 else |obras|
  {
    if obras != [] {
      RemoverUma(obras[1..], id);
      if obras[0].id == id {
        assert forall k :: 0 <= k < |obras[1..]| ==> obras[1..][k].id != id by {
          forall k | 0 <= k < |obras[1..]| ensures obras[1..][k].id != id {
            assert obras[1..][k] == obras[k + 1];
          }
        }
      } else {
        if exists k :: 0 <= k < |obras| && obras[k].id == id {
          var k :| 0 <= k < |obras| && obras[k].id == id;
          assert obras[1..][k - 1].id == id;
        }
      }
    } else {
      assert Remover(obras, id) == [];
    }
  }

  // --------------------------------------------------------------- toggles

  /** `prev.obras.map(obra => obra.id === id ? { ...obra, curtida: !obra.curtida } : obra)`. */
  function AlternarCurtida(obras: seq<Obra>, id: string): seq<Obra> {
    seq(|obras|, i requires 0 <= i < |obras| =>
      if obras[i].id == id then obras[i].(curtida := !obras[i].curtida) else obras[i])
  }

  /** `prev.obras.map(obra => obra.id === id ? { ...obra, desejos: !obra.desejos } : obra)`. */
  function AlternarDesejos(obras: seq<Obra>, id: string): seq<Obra> {
    seq(|obras|, i requires 0 <= i < |obras| =>
      if obras[i].id == id then obras[i].(desejos := !obras[i].desejos) else obras[i])
  }

  /** The like toggle flips `curtida` on the matching works only, changes no
      other field, and applied twice restores the list. */
  lemma AlternarCurtidaSpec(obras: seq<Obra>, id: string)
    ensures var r := AlternarCurtida(obras, id);
      |r| == |obras| &&
      (forall i :: 0 <= i < |obras| ==>
         r[i].curtida == (obras[i].curtida != (obras[i].id == id)) &&
         r[i].(curtida := obras[i].curtida) == obras[i]) &&
      AlternarCurtida(r, id) == obras
  {
  }

  /** The wishlist toggle flips `desejos` on the matching works only, changes
      no other field, and applied twice restores the list. */
  lemma AlternarDesejosSpec(obras: seq<Obra>, id: string)
    ensures var r := AlternarDesejos(obras, id);
      |r| == |obras| &&
      (forall i :: 0 <= i < |obras| ==>
         r[i].desejos == (obras[i].desejos != (obras[i].id == id)) &&
         r[i].(desejos := obras[i].desejos) == obras[i]) &&
      AlternarDesejos(r, id) == obras
  {
  }

  // ---------------------------------------------------------------- profile

  /** `Partial<Usuario>`: each field absent or present. */
  datatype ParcialUsuario = ParcialUsuario(
    id: Campo<string>,
    nome: Campo<string>,
    email: Campo<string>,
    bio: Campo<Option<string>>,
    imagem: Campo<Option<string>>,
    obras: Campo<seq<Obra>>)

  /** `{ ...prev, ...dados }`. */
  function MesclarPerfil(u: Usuario, d: ParcialUsuario): Usuario {
    Usuario(d.id.Sobre(u.id), d.nome.Sobre(u.nome), d.email.Sobre(u.email),
            d.bio.Sobre(u.bio), d.imagem.Sobre(u.imagem), d.obras.Sobre(u.obras))
  }

  /** A profile update writes every field it carries and keeps every field
      it does not mention; applying the same update twice is applying it
      once, and an update that carries the user's own values changes nothing. */
  lemma MesclarPerfilSpec(u: Usuario, d: ParcialUsuario)
    ensures var r := MesclarPerfil(u, d);
      Aplica(d.id, u.id, r.id) && Aplica(d.nome, u.nome, r.nome) &&
      Aplica(d.email, u.email, r.email) && Aplica(d.bio, u.bio, r.bio) &&
      Aplica(d.imagem, u.imagem, r.imagem) && Aplica(d.obras, u.obras, r.obras) &&
      MesclarPerfil(r, d) == r
    ensures MesclarPerfil(u, ParcialUsuario(Definir(u.id), Definir(u.nome), Definir(u.email),
                                              Definir(u.bio), Definir(u.imagem), Definir(u.obras))) == u
  {
  }

  // ------------------------------------------------------ default and load

  /** `usuarioPadrao`. */
  const UsuarioPadrao: Usuario := Usuario(
    "user-1", "Leitor Apaixonado", "leitor@myshelf.com",
    Some("Amante de boas histórias e descobertas culturais! 📚✨"), None, [])

  /** The initial state: the saved user, or the default one when nothing is
      saved or the saved text does not parse. */
  function Carregar(salvo: Salvo<Usuario>): (u: Usuario)
    ensures salvo.Lido? ==> u == salvo.valor
    ensures !salvo.Lido? ==> u == UsuarioPadrao && u.obras == []
  {
    match salvo
    case Lido(v) => v
    case _ => UsuarioPadrao
  }

  // ------------------------------------------------------------- the store

  /** `ObrasProvider`: the single `usuario` state and its update operations. */
  class Store {
    var usuario: Usuario

    /** `useState(() => …)`: loads the saved user or falls back to the default. */
    constructor (salvo: Salvo<Usuario>)
      ensures usuario == Carregar(salvo)
    {
      usuario := Carregar(salvo);
    }

    /** The `obras` value the context exposes. */
    function Obras(): seq<Obra>
      reads this
    {
      usuario.obras
    }

    /** `adicionarObra`, with `Date.now()` and the ISO timestamp as parameters. */
    method AdicionarObra(dados: DadosObra, agora: nat, dataCriacao: string)
      modifies this
      ensures usuario == old(usuario).(obras := old(usuario.obras) + [NovaObra(dados, IdObra(agora), dataCriacao)])
      ensures |Obras()| == |old(Obras())| + 1 && Obras()[..|old(Obras())|] == old(Obras())
    {
      var nova := NovaObra(dados, IdObra(agora), dataCriacao);
      usuario := usuario.(obras := usuario.obras + [nova]);
    }

    /** `editarObra`. */
    method EditarObra(id: string, p: ParcialObra)
      modifies this
      ensures usuario == old(usuario).(obras := Editar(old(usuario.obras), id, p))
    {
      usuario := usuario.(obras := Editar(usuario.obras, id, p));
    }

    /** `removerObra`. */
    method RemoverObra(id: string)
      modifies this
      ensures usuario == old(usuario).(obras := Remover(old(usuario.obras), id))
      ensures forall o :: o in Obras() ==> o.id != id
    {
      usuario := usuario.(obras := Remover(usuario.obras, id));
    }

    /** `toggleCurtida`. */
    method ToggleCurtida(id: string)
      modifies this
      ensures usuario == old(usuario).(obras := AlternarCurtida(old(usuario.obras), id))
    {
      usuario := usuario.(obras := AlternarCurtida(usuario.obras, id));
    }

    /** `toggleDesejos`. */
    method ToggleDesejos(id: string)
      modifies this
      ensures usuario == old(usuario).(obras := AlternarDesejos(old(usuario.obras), id))
    {
      usuario := usuario.(obras := AlternarDesejos(usuario.obras, id));
    }

    /** `atualizarPerfil`. */
    method AtualizarPerfil(dados: ParcialUsuario)
      modifies this
      ensures usuario == MesclarPerfil(old(usuario), dados)
    {
      usuario := MesclarPerfil(usuario, dados);
    }

    /** `limparDados`: the whole user, profile included, becomes the default. */
    method LimparDados()
      modifies this
      ensures usuario == UsuarioPadrao && Obras() == []
    {
      usuario := UsuarioPadrao;
    }
  }
}
