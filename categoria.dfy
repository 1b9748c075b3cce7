/** Categories: a named tag holding the ids of its publications. The link is
    kept on both sides: `Associar` and `Desassociar` update the category and
    the publication together. */
module Categorias {

  import opened Basico
  import opened Json
  import opened Colecoes
  import opened Publicacoes

  class Categoria {
    const id: ID
    var nome: string
    /** Ids of the associated publications: a set, in insertion order. */
    var posts: seq<ID>

    ghost predicate Valid()
      reads this
    {
      SemRepeticao(posts)
    }

    constructor (id: ID, nome: string)
      ensures Valid()
      ensures this.id == id && this.nome == nome && posts == []
    {
      this.id := id;
      this.nome := nome;
      this.posts := [];
    }

    /** The `nome` setter. */
    method SetNome(novo: string)
      modifies this
      ensures nome == novo && posts == old(posts)
    {
      nome := novo;
    }

    /** `associar`: the post's id joins this category and this category's id
        joins the post; nothing else of either changes. */
    method Associar(post: Publicacao)
      requires Valid() && post.Valid()
      modifies this, post
      ensures Valid() && post.Valid()
      ensures nome == old(nome) && posts == Adicionar(old(posts), post.id)
      ensures Elementos(posts) == Elementos(old(posts)) + {post.id}
      ensures post.Estado() == old(post.Estado()).(categorias := Adicionar(old(post.categorias), id))
      ensures Associados(this, post)
    {
      posts := Adicionar(posts, post.id);
      post.AssociarCategoria(id);
    }

    /** `desassociar`: the post's id leaves this category and this category's
        id leaves the post; nothing else of either changes. */
    method Desassociar(post: Publicacao)
      requires Valid() && post.Valid()
      modifies this, post
      ensures Valid() && post.Valid()
      ensures nome == old(nome) && posts == Remover(old(posts), post.id)
      ensures Elementos(posts) == Elementos(old(posts)) - {post.id}
      ensures post.Estado() == old(post.Estado()).(categorias := Remover(old(post.categorias), id))
      ensures post.id !in posts && id !in post.categorias
    {
      posts := Remover(posts, post.id);
      post.DesassociarCategoria(id);
    }

    /** `toJSON`: id, name and the post ids, in the order they were added. */
    function ToJSON(): (r: Objeto)
      reads this
      ensures r.Keys == {"id", "nome", "posts"}
      ensures r["id"] == JStr(id) && r["nome"] == JStr(nome)
      ensures r["posts"].JArr? && |r["posts"].items| == |posts|
      ensures forall i :: 0 <= i < |posts| ==> r["posts"].items[i] == JStr(posts[i])
    {
      map["id" := JStr(id), "nome" := JStr(nome), "posts" := JArr(Textos(posts))]
    }
  }

  /** Both sides of the link are present. */
  predicate Associados(c: Categoria, p: Publicacao)
    reads c, p
  {
    p.id in c.posts && c.id in p.categorias
  }

  /** A client: dissociating, through the objects, right after associating a
      post that was not linked restores both the category and the post. */
  method AssociarEDesassociar(c: Categoria, p: Publicacao)
    requires c.Valid() && p.Valid()
    requires p.id !in c.posts && c.id !in p.categorias
    modifies c, p
    ensures c.Valid() && p.Valid()
    ensures c.nome == old(c.nome) && c.posts == old(c.posts)
    ensures p.Estado() == old(p.Estado())
  {
    c.Associar(p);
    c.Desassociar(p);
    RemoverDesfazAdicionar(old(c.posts), p.id);
    RemoverDesfazAdicionar(old(p.categorias), c.id);
  }

  /** A client: associating twice, through the objects, ends as associating
      once, and the two sides agree. */
  method AssociarDuasVezes(c: Categoria, p: Publicacao)
    requires c.Valid() && p.Valid()
    modifies c, p
    ensures c.posts == Adicionar(old(c.posts), p.id)
    ensures p.Estado() == old(p.Estado()).(categorias := Adicionar(old(p.categorias), c.id))
    ensures Associados(c, p)
  {
    c.Associar(p);
    c.Associar(p);
    AdicionarIdempotente(old(c.posts), p.id);
    AdicionarIdempotente(old(p.categorias), c.id);
  }
}
