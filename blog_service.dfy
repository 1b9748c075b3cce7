/** The blog service: an in-memory repository of publications keyed by id, a
    registry of categories, and the permission checks made before a
    publication is edited or deleted. */
module BlogServices {

  import opened Basico
  import opened Wrappers
  import opened Colecoes
  import opened Usuarios
  import opened Publicacoes
  import opened Categorias
  import opened Permissao

  /** The two repository queries, as the condition each keeps. */
  datatype Criterio = PorAutor(autorId: ID) | PorCategoria(categoriaId: ID)

  predicate Atende(p: Publicacao, c: Criterio)
    reads p
  {
    match c
    case PorAutor(autorId) => p.autor.id == autorId
    case PorCategoria(categoriaId) => categoriaId in p.categorias
  }

  /** `Array.prototype.filter`: the publications that meet the condition, in
      their original order. */
  function Filtrar(ps: seq<Publicacao>, c: Criterio): (r: seq<Publicacao>)
    reads ps
    ensures forall p :: p in r ==> p in ps && Atende(p, c)
    ensures forall p :: p in ps && Atende(p, c) ==> p in r
    ensures Subsequencia(r, ps)
    ensures SemRepeticao(ps) ==> SemRepeticao(r)
    ensures |r| <= |ps|
  {
    if ps == [] then []
    else
      var resto := Filtrar(ps[1..], c);
      assert SemRepeticao(ps) ==> SemRepeticao(ps[1..]) && ps[0] !in resto;
      if Atende(ps[0], c) then [ps[0]] + resto else resto
  }

  class InMemoryPostRepository {
    var items: InsertionMap<ID, Publicacao>

    /** Every publication is stored under its own id. */
    ghost predicate Valid()
      reads this
    {
      && items.Valid()
      && forall k :: k in items.entradas ==> items.entradas[k].id == k
    }

    constructor ()
      ensures Valid() && items == InsertionMap([], map[])
    {
      items := InsertionMap([], map[]);
    }

    /** The publication stored under `id`, as a set (for frames). */
    function ComId(id: ID): set<Publicacao>
      reads this
    {
      if id in items.entradas then {items.entradas[id]} else {}
    }

    /** `save`: an upsert keyed by the publication's id. */
    method Save(pub: Publicacao)
      requires Valid()
      modifies this
      ensures Valid()
      ensures items == old(items).Put(pub.id, pub)
    {
      items := items.Put(pub.id, pub);
    }

    /** `delete`: absent ids are ignored. */
    method Delete(id: ID)
      requires Valid()
      modifies this
      ensures Valid()
      ensures items == old(items).Remove(id)
    {
      items := items.Remove(id);
    }

    /** `findById`, with `undefined` as `None`. */
    function FindById(id: ID): (r: Option<Publicacao>)
      requires Valid()
      reads this
      ensures r.Some? <==> id in items.entradas
      ensures r.Some? ==> r.value == items.entradas[id] && r.value.id == id
    {
      items.Get(id)
    }

    /** `findAll`: every stored publication exactly once, in insertion order. */
    function FindAll(): (r: seq<Publicacao>)
      requires Valid()
      reads this
      ensures |r| == |items.entradas|
      ensures Elementos(r) == items.entradas.Values
      ensures SemRepeticao(r)
      ensures |r| == |items.ordem| && forall i :: 0 <= i < |r| ==> r[i].id == items.ordem[i]
    {
      var r := items.Values();
      assert forall i :: 0 <= i < |r| ==> r[i].id == items.ordem[i] by {
        forall i | 0 <= i < |r| ensures r[i].id == items.ordem[i] {
          assert items.ordem[i] in items.entradas;
        }
      }
      r
    }

    /** `findByAuthor`: exactly the stored publications by that author. */
    function FindByAuthor(autorId: ID): (r: seq<Publicacao>)
      requires Valid()
      reads this, items.entradas.Values
      ensures forall p :: p in r ==> p in items.entradas.Values && p.autor.id == autorId
      ensures forall p :: p in items.entradas.Values && p.autor.id == autorId ==> p in r
      ensures SemRepeticao(r) && Subsequencia(r, FindAll())
    {
      Filtrar(FindAll(), PorAutor(autorId))
    }

    /** `findByCategory`: exactly the stored publications whose own category
        set holds that id. */
    function FindByCategory(categoriaId: ID): (r: seq<Publicacao>)
      requires Valid()
      reads this, items.entradas.Values
      ensures forall p :: p in r ==> p in items.entradas.Values && categoriaId in p.categorias
      ensures forall p :: p in items.entradas.Values && categoriaId in p.categorias ==> p in r
      ensures SemRepeticao(r) && Subsequencia(r, FindAll())
    {
      Filtrar(FindAll(), PorCategoria(categoriaId))
    }
  }

  /** The `{ ok, message }` outcome of a deletion. */
  datatype Resultado = Resultado(ok: bool, message: string)

  const MsgNaoEncontrada := "Publicação não encontrada"
  const MsgDeletarNegado := "Permissão negada: não pode deletar esta publicação"
  const MsgDeletada := "Publicação deletada com sucesso"
  const MsgEditarNegado := "Permissão negada: não pode editar esta publicação"

  /** Why an edit was refused; the source throws an `Error` with `Mensagem`. */
  datatype ErroEdicao = NaoEncontrada | PermissaoNegada
  {
    function Mensagem(): string
    {
      match this
      case NaoEncontrada => MsgNaoEncontrada
      case PermissaoNegada => MsgEditarNegado
    }
  }

  /** The partial fields of an edit; `None` stands for an absent field. */
  datatype DadosEdicao = DadosEdicao(titulo: Option<string>, conteudo: Option<string>)

  /** JavaScript truthiness of an optional string: present and not empty. */
  predicate Informado(v: Option<string>)
  {
    v.Some? && v.value != ""
  }

  /** The value a field has after an edit that may supply a new one. */
  function Aplicar(atual: string, novo: Option<string>): string
  {
    if Informado(novo) then novo.value else atual
  }

  class BlogService {
    const repo: InMemoryPostRepository
    var categorias: InsertionMap<ID, Categoria>

    /** Every category is registered under its own id. */
    ghost predicate Valid()
      reads this, repo
    {
      && repo.Valid()
      && categorias.Valid()
      && forall k :: k in categorias.entradas ==> categorias.entradas[k].id == k
    }

    /** The id generator of the source is not kept: `CriarCategoria` takes
        the id it would have produced. */
    constructor ()
      ensures Valid() && fresh(repo)
      ensures repo.items == InsertionMap([], map[]) && categorias == InsertionMap([], map[])
    {
      repo := new InMemoryPostRepository();
      categorias := InsertionMap([], map[]);
    }

    /** `criarPublicacao`: stores (or replaces) the publication under its id
        and returns it; every other id keeps what it had. */
    method CriarPublicacao(pub: Publicacao) returns (r: Publicacao)
      requires Valid()
      modifies repo
      ensures Valid() && r == pub
      ensures repo.items == old(repo.items).Put(pub.id, pub)
      ensures repo.FindById(pub.id) == Some(pub)
      ensures forall k :: k != pub.id ==> repo.FindById(k) == old(repo.FindById(k))
    {
      repo.Save(pub);
      r := pub;
    }

    /** `deletarPublicacao`: never fails; says whether the publication was
        removed and why not. */
    method DeletarPublicacao(id: ID, solicitante: Usuario) returns (res: Resultado)
      requires Valid()
      modifies repo
      ensures Valid()
      ensures id !in old(repo.items.entradas) ==>
        res == Resultado(false, MsgNaoEncontrada) && repo.items == old(repo.items)
      ensures id in old(repo.items.entradas) && !CanDelete(solicitante, old(repo.items.entradas[id])) ==>
        res == Resultado(false, MsgDeletarNegado) && repo.items == old(repo.items)
      ensures id in old(repo.items.entradas) && CanDelete(solicitante, old(repo.items.entradas[id])) ==>
        res == Resultado(true, MsgDeletada) && repo.items == old(repo.items).Remove(id)
      ensures res.ok ==> repo.FindById(id) == None
      ensures forall k :: k != id ==> repo.FindById(k) == old(repo.FindById(k))
    {
      var pub := repo.FindById(id);
      if pub.None? {
        return Resultado(false, MsgNaoEncontrada);
      }
      if !CanDelete(solicitante, pub.value) {
        return Resultado(false, MsgDeletarNegado);
      }
      repo.Delete(id);
      res := Resultado(true, MsgDeletada);
    }

    /** `editarPublicacao`: refuses (the source throws) an absent id or a
        requester without edit permission, changing nothing; otherwise sets
        the title and the content that are supplied and not empty, leaves
        every other field and the repository as they were, and returns the
        publication. */
    method EditarPublicacao(id: ID, solicitante: Usuario, dados: DadosEdicao)
      returns (r: Result<Publicacao, ErroEdicao>)
      requires Valid()
      modifies repo, repo.ComId(id)
      ensures Valid() && repo.items == old(repo.items)
      ensures id !in old(repo.items.entradas) ==> r == Failure(NaoEncontrada)
      ensures id in old(repo.items.entradas) ==>
        var pub := old(repo.items.entradas[id]);
        if old(CanEdit(solicitante, pub)) then
          && r == Success(pub)
          && pub.Estado() == old(pub.Estado()).(titulo := Aplicar(old(pub.titulo), dados.titulo),
                                                conteudo := Aplicar(old(pub.conteudo), dados.conteudo))
        else
          r == Failure(PermissaoNegada) && unchanged(pub)
    {
      var encontrada := repo.FindById(id);
      if encontrada.None? {
        return Failure(NaoEncontrada);
      }
      var pub := encontrada.value;
      if !CanEdit(solicitante, pub) {
        return Failure(PermissaoNegada);
      }
      if Informado(dados.titulo) {
        pub.SetTitulo(dados.titulo.value);
      }
      if Informado(dados.conteudo) {
        pub.SetConteudo(dados.conteudo.value);
      }
      PutMesmoValor(repo.items, id);
      repo.Save(pub);
      r := Success(pub);
    }

    /** `buscarPorAutor`. */
    function BuscarPorAutor(autorId: ID): (r: seq<Publicacao>)
      requires Valid()
      reads this, repo, repo.items.entradas.Values
      ensures forall p :: p in r ==> p in repo.items.entradas.Values && p.autor.id == autorId
      ensures forall p :: p in repo.items.entradas.Values && p.autor.id == autorId ==> p in r
      ensures SemRepeticao(r) && Subsequencia(r, repo.FindAll())
    {
      repo.FindByAuthor(autorId)
    }

    /** `buscarPorCategoria`. */
    function BuscarPorCategoria(categoriaId: ID): (r: seq<Publicacao>)
      requires Valid()
      reads this, repo, repo.items.entradas.Values
      ensures forall p :: p in r ==> p in repo.items.entradas.Values && categoriaId in p.categorias
      ensures forall p :: p in repo.items.entradas.Values && categoriaId in p.categorias ==> p in r
      ensures SemRepeticao(r) && Subsequencia(r, repo.FindAll())
    {
      repo.FindByCategory(categoriaId)
    }

    /** `listarTodas`. */
    function ListarTodas(): (r: seq<Publicacao>)
      requires Valid()
      reads this, repo
      ensures Elementos(r) == repo.items.entradas.Values
      ensures |r| == |repo.items.entradas| && SemRepeticao(r)
    {
      repo.FindAll()
    }

    /** `criarCategoria`: registers a new, empty category under the id the
        caller's generator produced (replacing any category under that id). */
    method CriarCategoria(nome: string, novoId: ID) returns (cat: Categoria)
      requires Valid()
      modifies this
      ensures Valid() && fresh(cat)
      ensures cat.Valid() && cat.id == novoId && cat.nome == nome && cat.posts == []
      ensures categorias == old(categorias).Put(novoId, cat)
      ensures ObterCategoria(novoId) == Some(cat)
      ensures forall k :: k != novoId ==> ObterCategoria(k) == old(ObterCategoria(k))
    {
      cat := new Categoria(novoId, nome);
      categorias := categorias.Put(novoId, cat);
    }

    /** `obterCategoria`, with `undefined` as `None`. */
    function ObterCategoria(id: ID): (r: Option<Categoria>)
      requires Valid()
      reads this, repo
      ensures r.Some? <==> id in categorias.entradas
      ensures r.Some? ==> r.value == categorias.entradas[id] && r.value.id == id
    {
      categorias.Get(id)
    }

    /** `listarCategorias`: every registered category once, in insertion order. */
    function ListarCategorias(): (r: seq<Categoria>)
      requires Valid()
      reads this, repo
      ensures |r| == |categorias.entradas|
      ensures Elementos(r) == categorias.entradas.Values
    {
      categorias.Values()
    }
  }

  /** The demo's setup: a service holding two publications, in the order
      they were created. */
  method ServicoComDuas(primeira: Publicacao, segunda: Publicacao) returns (servico: BlogService)
    requires primeira.id != segunda.id
    ensures fresh(servico) && fresh(servico.repo) && servico.Valid()
    ensures servico.repo.items.ordem == [primeira.id, segunda.id]
    ensures servico.repo.items.entradas == map[primeira.id := primeira, segunda.id := segunda]
  {
    servico := new BlogService();
    var _ := servico.CriarPublicacao(primeira);
    var _ := servico.CriarPublicacao(segunda);
  }

  /** The demo's first article, by an Editor, and its first video, by an
      Admin, stored in that order in a new service. */
  method ServicoDaDemo(editor: Usuario, admin: Usuario)
    returns (artigo: Publicacao, video: Publicacao, servico: BlogService)
    ensures fresh(artigo) && fresh(video) && fresh(servico) && fresh(servico.repo)
    ensures artigo.id == "p_artigo1" && artigo.autor == editor
    ensures video.id == "p_video1" && video.autor == admin
    ensures servico.Valid()
    ensures servico.repo.items.ordem == ["p_artigo1", "p_video1"]
    ensures servico.repo.items.entradas == map["p_artigo1" := artigo, "p_video1" := video]
  {
    artigo := new Publicacao.Artigo("p_artigo1", "Como TypeScript ajuda no design",
      "TypeScript melhora a manutenção do código e oferece tipagem estática.", editor,
      Some("Breve sobre TypeScript"), "2024-01-01T00:00:00.000Z");
    video := new Publicacao.VideoPost("p_video1", "Entrevista com especialista",
      "Uma entrevista profunda sobre arquitetura de software.", admin,
      "https://youtu.be/exemplo", 3600, "2024-01-01T00:00:00.000Z");
    servico := ServicoComDuas(artigo, video);
  }

  /** The deletion scenario of the demo: a Leitor may not delete an Editor's
      article, an Admin may, and afterwards the listing holds only the other
      publication. */
  method CenarioDeExclusao() returns (tentativaLeitor: Resultado, tentativaAdmin: Resultado,
                                      restantes: seq<Publicacao>)
    ensures tentativaLeitor == Resultado(false, MsgDeletarNegado)
    ensures tentativaAdmin == Resultado(true, MsgDeletada)
    ensures |restantes| == 1 && restantes[0].id == "p_video1"
  {
    var admin := new Usuario("u_admin", "Alice Admin", "senha123", Some(Admin));
    var editor := new Usuario("u_editor", "Eduardo Editor", "senha123", Some(Editor));
    var leitor := new Usuario("u_leitor", "Lucas Leitor", "senha123", Some(Leitor));
    var artigo, video, servico := ServicoDaDemo(editor, admin);
    assert !CanDelete(leitor, artigo) by {
      assert leitor.papel == Leitor && leitor.id != editor.id;
    }
    tentativaLeitor := servico.DeletarPublicacao(artigo.id, leitor);
    assert servico.repo.items.entradas["p_artigo1"] == artigo;
    tentativaAdmin := servico.DeletarPublicacao(artigo.id, admin);
    assert servico.repo.items.ordem == ["p_video1"] by {
      assert Remover(["p_artigo1", "p_video1"], "p_artigo1") == ["p_video1"];
    }
    restantes := servico.ListarTodas();
  }


}
