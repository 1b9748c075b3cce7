/** Publications: the common behaviour of articles and video posts (comments,
    likes, categories, summary, display line and serialized view). The two
    kinds are one class with a per-kind payload, `Tipo`. */
module Publicacoes {

  import opened Basico
  import opened Wrappers
  import opened Json
  import opened Colecoes
  import opened Usuarios
  import opened Comentarios

  /** Longest summary `resumoConteudo` gives. */
  const LimiteResumo: nat := 100

  /** `resumoConteudo`: the content when it is short enough, otherwise its
      first `LimiteResumo` characters. Either way, the longest prefix of the
      content that fits the limit. */
  function Resumo(conteudo: string): (r: string)
    ensures |r| <= LimiteResumo
    ensures r <= conteudo
    ensures |conteudo| <= LimiteResumo ==> r == conteudo
    ensures |conteudo| > LimiteResumo ==> |r| == LimiteResumo
  {
    if |conteudo| <= LimiteResumo then conteudo else conteudo[..LimiteResumo]
  }

  /** What an article or a video post adds to a publication. */
  datatype Tipo =
    | Artigo(resumo: Option<string>)
    | VideoPost(url: string, duracao: int)

  /** The name of the concrete class, used as the `tipo` discriminator. */
  function NomeDoTipo(t: Tipo): string
  {
    match t
    case Artigo(_) => "Artigo"
    case VideoPost(_, _) => "VideoPost"
  }

  /** Every mutable field of a publication, as one value. */
  datatype Campos = Campos(
    titulo: string,
    conteudo: string,
    autor: Usuario,
    comentarios: seq<Comentario>,
    likes: seq<ID>,
    categorias: seq<ID>,
    tipo: Tipo)

  /** The field names of `toJSONBase`. */
  const CamposBase: set<string> :=
    {"id", "tipo", "titulo", "conteudo", "resumoConteudo", "autor",
     "comentarios", "likes", "totalLikes", "criadoEm", "categorias"}

  class Publicacao {
    const id: ID
    /** ISO-8601 text of the creation instant, supplied by the caller's clock. */
    const criadoEm: string
    var titulo: string
    var conteudo: string
    var autor: Usuario
    /** Append-only. */
    var comentarios: seq<Comentario>
    /** Ids of the users who liked it: a set, in insertion order. */
    var likes: seq<ID>
    /** Ids of its categories: a set, in insertion order. */
    var categorias: seq<ID>
    var tipo: Tipo

    /** The like and category collections are sets. */
    ghost predicate Valid()
      reads this
    {
      SemRepeticao(likes) && SemRepeticao(categorias)
    }

    function Estado(): Campos
      reads this
    {
      Campos(titulo, conteudo, autor, comentarios, likes, categorias, tipo)
    }

    /** `new Artigo(...)`: no comments, likes or categories yet. */
    constructor Artigo(id: ID, titulo: string, conteudo: string, autor: Usuario,
                       resumo: Option<string>, criadoEm: string)
      ensures Valid()
      ensures this.id == id && this.criadoEm == criadoEm
      ensures Estado() == Campos(titulo, conteudo, autor, [], [], [], Tipo.Artigo(resumo))
    {
      this.id := id;
      this.criadoEm := criadoEm;
      this.titulo := titulo;
      this.conteudo := conteudo;
      this.autor := autor;
      this.comentarios := [];
      this.likes := [];
      this.categorias := [];
      this.tipo := Tipo.Artigo(resumo);
    }

    /** `new VideoPost(...)`: no comments, likes or categories yet. */
    constructor VideoPost(id: ID, titulo: string, conteudo: string, autor: Usuario,
                          url: string, duracao: int, criadoEm: string)
      ensures Valid()
      ensures this.id == id && this.criadoEm == criadoEm
      ensures Estado() == Campos(titulo, conteudo, autor, [], [], [], Tipo.VideoPost(url, duracao))
      ensures Url() == url && Duracao() == duracao
    {
      this.id := id;
      this.criadoEm := criadoEm;
      this.titulo := titulo;
      this.conteudo := conteudo;
      this.autor := autor;
      this.comentarios := [];
      this.likes := [];
      this.categorias := [];
      this.tipo := Tipo.VideoPost(url, duracao);
    }

    /** The `titulo` setter. */
    method SetTitulo(novo: string)
      modifies this
      ensures Estado() == old(Estado()).(titulo := novo)
    {
      titulo := novo;
    }

    /** The `conteudo` setter. */
    method SetConteudo(novo: string)
      modifies this
      ensures Estado() == old(Estado()).(conteudo := novo)
    {
      conteudo := novo;
    }

    /** `alterarAutor`: no permission check; the caller is responsible. */
    method AlterarAutor(novoAutor: Usuario)
      modifies this
      ensures Estado() == old(Estado()).(autor := novoAutor)
    {
      autor := novoAutor;
    }

    /** `associarCategoria`: records the category's id on this side only
        (only the category's id is read from it). */
    method AssociarCategoria(categoriaId: ID)
      requires Valid()
      modifies this
      ensures Valid()
      ensures Estado() == old(Estado()).(categorias := Adicionar(old(categorias), categoriaId))
      ensures Elementos(categorias) == Elementos(old(categorias)) + {categoriaId}
    {
      categorias := Adicionar(categorias, categoriaId);
    }

    /** `desassociarCategoria`: forgets the category's id on this side only. */
    method DesassociarCategoria(categoriaId: ID)
      requires Valid()
      modifies this
      ensures Valid()
      ensures Estado() == old(Estado()).(categorias := Remover(old(categorias), categoriaId))
      ensures Elementos(categorias) == Elementos(old(categorias)) - {categoriaId}
    {
      categorias := Remover(categorias, categoriaId);
    }

    /** `adicionarComentarioObj`: appends an already built comment. */
    method AdicionarComentarioObj(comentario: Comentario)
      modifies this
      ensures Estado() == old(Estado()).(comentarios := old(comentarios) + [comentario])
    {
      comentarios := comentarios + [comentario];
    }

    /** `adicionarComentario`: builds a comment with the id the caller's
        generator gives and the instant its clock gives, appends it and
        returns it. */
    method AdicionarComentario(texto: string, autorComentario: Usuario, novoId: ID, agora: string)
      returns (comentario: Comentario)
      modifies this
      ensures comentario == Comentario(novoId, texto, autorComentario, agora)
      ensures Estado() == old(Estado()).(comentarios := old(comentarios) + [comentario])
      ensures |comentarios| == |old(comentarios)| + 1 && comentarios[|comentarios| - 1] == comentario
      ensures forall i :: 0 <= i < |old(comentarios)| ==> comentarios[i] == old(comentarios)[i]
    {
      comentario := Comentario(novoId, texto, autorComentario, agora);
      comentarios := comentarios + [comentario];
    }

    /** `adicionarLike`: a user counts once, however often they like. */
    method AdicionarLike(usuario: Usuario)
      requires Valid()
      modifies this
      ensures Valid()
      ensures Estado() == old(Estado()).(likes := Adicionar(old(likes), usuario.id))
      ensures usuario.id in likes
      ensures TotalLikes() == old(TotalLikes()) + (if usuario.id in old(likes) then 0 else 1)
    {
      likes := Adicionar(likes, usuario.id);
    }

    /** `removerLike`: removes only this user's like; a no-op when there is none. */
    method RemoverLike(usuario: Usuario)
      requires Valid()
      modifies this
      ensures Valid()
      ensures Estado() == old(Estado()).(likes := Remover(old(likes), usuario.id))
      ensures Elementos(likes) == Elementos(old(likes)) - {usuario.id}
      ensures usuario.id !in old(likes) ==> Estado() == old(Estado())
    {
      likes := Remover(likes, usuario.id);
    }

    /** `obterTotalLikes`: the size of the like set. */
    function TotalLikes(): nat
      reads this
    {
      |likes|
    }

    /** The `resumoConteudo` getter. */
    function ResumoConteudo(): string
      reads this
    {
      Resumo(conteudo)
    }

    /** The article's `resumo` getter. */
    function ResumoArtigo(): Option<string>
      requires tipo.Artigo?
      reads this
    {
      tipo.resumo
    }

    /** The article's `resumo` setter; `None` stands for `undefined`. */
    method SetResumo(texto: Option<string>)
      requires tipo.Artigo?
      modifies this
      ensures Estado() == old(Estado()).(tipo := Tipo.Artigo(texto))
      ensures ResumoArtigo() == texto
    {
      tipo := Tipo.Artigo(texto);
    }

    /** The video post's `url` getter. */
    function Url(): string
      requires tipo.VideoPost?
      reads this
    {
      tipo.url
    }

    /** The video post's `duracao` getter (seconds). */
    function Duracao(): int
      requires tipo.VideoPost?
      reads this
    {
      tipo.duracao
    }

    /** `exibir`: the one-line rendering for people. */
    function Exibir(): string
      reads this, autor
    {
      "[" + id + "] " + titulo + " by " + autor.nome + " - " + ResumoConteudo()
        + " (" + Decimal(TotalLikes()) + " likes, " + Decimal(|comentarios|) + " comentários)"
    }

    /** `toJSONBase`: the fields every kind of publication serializes. */
    function ToJSONBase(): (r: Objeto)
      reads this, autor, Autores(comentarios)
      ensures r.Keys == CamposBase
      ensures r["id"] == JStr(id) && r["criadoEm"] == JStr(criadoEm)
      ensures r["tipo"] == JStr(NomeDoTipo(tipo))
      ensures r["titulo"] == JStr(titulo) && r["conteudo"] == JStr(conteudo)
      ensures r["resumoConteudo"] == JStr(Resumo(conteudo))
      ensures r["autor"] == JObj(autor.ToJSON())
      ensures r["comentarios"] == JArr(ComentariosJSON(comentarios))
      ensures r["likes"] == JArr(Textos(likes))
      ensures r["totalLikes"] == JNum(|r["likes"].items|)
      ensures r["categorias"] == JArr(Textos(categorias))
    {
      map[
        "id" := JStr(id),
        "tipo" := JStr(NomeDoTipo(tipo)),
        "titulo" := JStr(titulo),
        "conteudo" := JStr(conteudo),
        "resumoConteudo" := JStr(ResumoConteudo()),
        "autor" := JObj(autor.ToJSON()),
        "comentarios" := JArr(ComentariosJSON(comentarios)),
        "likes" := JArr(Textos(likes)),
        "totalLikes" := JNum(TotalLikes()),
        "criadoEm" := JStr(criadoEm),
        "categorias" := JArr(Textos(categorias))
      ]
    }

    /** `toJSON` of `Artigo` and of `VideoPost`: the base view with the
        kind's own fields spread over it. */
    function ToJSON(): (r: Objeto)
      reads this, autor, Autores(comentarios)
      ensures forall k :: k in ToJSONBase() ==> k in r && r[k] == ToJSONBase()[k]
      ensures r.Keys == CamposBase + CamposDoTipo(tipo).Keys
      ensures forall k :: k in CamposDoTipo(tipo) ==> r[k] == CamposDoTipo(tipo)[k]
    {
      var base := ToJSONBase();
      var extra := CamposDoTipo(tipo);
      assert base.Keys !! extra.Keys;
      Espalhar(base, extra)
    }
  }

  /** The fields a kind of publication adds to the base view: the article's
      `resumo` (`undefined` when absent), the video's `url` and `duracao`.
      None of them clashes with a base field. */
  function CamposDoTipo(t: Tipo): (r: Objeto)
    ensures r.Keys !! CamposBase
    ensures t.Artigo? ==>
      r.Keys == {"resumo"} &&
      r["resumo"] == (if t.resumo.Some? then JStr(t.resumo.value) else Undefined)
    ensures t.VideoPost? ==>
      r.Keys == {"url", "duracao"} && r["url"] == JStr(t.url) && r["duracao"] == JNum(t.duracao)
  {
    match t
    case Artigo(resumo) => map["resumo" := if resumo.Some? then JStr(resumo.value) else Undefined]
    case VideoPost(url, duracao) => map["url" := JStr(url), "duracao" := JNum(duracao)]
  }

  /** The like count is the number of distinct users who liked. */
  lemma TotalLikesContaUsuariosDistintos(p: Publicacao)
    requires p.Valid()
    ensures p.TotalLikes() == |Elementos(p.likes)|
  {
    TamanhoSemRepeticao(p.likes);
  }

  /** In the serialized view, `totalLikes` is the number of distinct ids the
      `likes` array lists. */
  lemma {:induction false} TotalLikesDaVisao(p: Publicacao)
    requires p.Valid()
    ensures p.ToJSONBase()["totalLikes"] == JNum(|Elementos(p.ToJSONBase()["likes"].items)|)
  {
    var itens := p.ToJSONBase()["likes"].items;
    assert SemRepeticao(itens) by {
      forall i, j | 0 <= i < j < |itens|
        ensures itens[i] != itens[j]
      {
        assert itens[i] == JStr(p.likes[i]) && itens[j] == JStr(p.likes[j]);
      }
    }
    TamanhoSemRepeticao(itens);
  }

  /** A client: a second like by the same user changes nothing, so the total
      is as after the first. */
  method CurtirDuasVezes(p: Publicacao, usuario: Usuario)
    requires p.Valid()
    modifies p
    ensures p.Valid()
    ensures p.Estado() == old(p.Estado()).(likes := Adicionar(old(p.likes), usuario.id))
    ensures p.TotalLikes() == old(p.TotalLikes()) + (if usuario.id in old(p.likes) then 0 else 1)
  {
    p.AdicionarLike(usuario);
    p.AdicionarLike(usuario);
    AdicionarIdempotente(old(p.likes), usuario.id);
  }

  /** The display line is built from the id, the title, the author's name,
      the summary and the like and comment counts, and from nothing else. */
  lemma ExibirDependeSo(p: Publicacao, q: Publicacao)
    requires p.id == q.id && p.titulo == q.titulo && p.autor.nome == q.autor.nome
    requires p.ResumoConteudo() == q.ResumoConteudo()
    requires p.TotalLikes() == q.TotalLikes() && |p.comentarios| == |q.comentarios|
    ensures p.Exibir() == q.Exibir()
  {
  }

  /** The display line opens with the bracketed id and the title. */
  lemma ExibirComecaPeloId(p: Publicacao)
    ensures "[" + p.id + "] " + p.titulo + " by " <= p.Exibir()
  {
    var cabeca := "[" + p.id + "] " + p.titulo + " by ";
    assert p.Exibir() == cabeca + (p.autor.nome + " - " + p.ResumoConteudo()
      + " (" + Decimal(p.TotalLikes()) + " likes, " + Decimal(|p.comentarios|) + " comentários)");
  }
}
