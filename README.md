# blog-cms in Dafny

A model of the in-memory blog domain of `blog-cms`: users with roles,
publications (articles and video posts) with comments, likes and categories,
categories linked to publications on both sides, the permission policy that
decides who may edit or delete a publication, the blog service that applies
that policy before changing its in-memory repository, and the `omit`
serialization helper.

Layout, one module per source file:

| file | module | models |
|---|---|---|
| `wrappers.dfy` | `Wrappers` | `Option` (for `undefined`) and `Result` (for a thrown error) |
| `basico.dfy` | `Basico` | `ID`, the role enum `Papel`, the decimal text of a count |
| `json.dfy` | `Json` | the plain objects `toJSON` builds, and object spread |
| `colecoes.dfy` | `Colecoes` | JavaScript `Set` and `Map`, with their insertion order |
| `serializer.dfy` | `Serializer` | `src/utils/Serializer.ts` |
| `usuario.dfy` | `Usuarios` | `src/models/Usuario.ts` |
| `comentario.dfy` | `Comentarios` | the comment entity of `src/models/Comentários.ts` |
| `publicacao.dfy` | `Publicacoes` | `src/models/Publicacao.ts`, `Artigos.ts`, `VideoPost.ts` |
| `categoria.dfy` | `Categorias` | `src/models/Categoria.ts` |
| `permissao.dfy` | `Permissao` | `src/services/PermissaoService.ts` |
| `blog_service.dfy` | `BlogServices` | `src/services/BlogService.ts` |

Objects whose fields the source updates in place are classes (`Usuario`,
`Publicacao`, `Categoria`, `InMemoryPostRepository`, `BlogService`); their
mutators carry `modifies` clauses and state the whole new state. A
publication's mutable fields are gathered in the value `Publicacao.Estado()`,
so "nothing else changes" is a single equation with a datatype update. The
article and video-post subclasses are one class whose `tipo` field holds the
kind's payload: `Artigo(resumo)` or `VideoPost(url, duracao)`.

JavaScript sets keep insertion order, and `Array.from` lists them in it.
They are modelled as sequences without repetitions (`Colecoes.Adicionar` for
`add`, `Colecoes.Remover` for `delete`). A JavaScript `Map` is an
`InsertionMap`: the key order plus the entries. The repository keeps
publications by reference, as the source does. A publication edited through
the service is therefore the same object the caller holds.

Where the text and the code differ, the model follows the code. The comment
above `criarCategoria` says an existing category is returned. The code always
builds a new category and stores it under the generated id, replacing any
category already stored there. `CriarCategoria` does what the code does.

## Model

| member | source | states |
|---|---|---|
| `Basico.Decimal` | src/models/Publicacao.ts:135 | the like and comment counts are rendered as non-empty decimal digits without a leading zero |
| `Basico.DecimalIdaEVolta` | src/models/Publicacao.ts:135 | reading the rendered digits back yields the count: the rendering loses nothing |
| `Json.Textos` | src/models/Publicacao.ts:148 | an array of id strings has one string per id, in the set's order |
| `Json.Espalhar` | src/models/Artigos.ts:23-26 | object spread keeps every base field not overridden and adds every extra field |
| `Colecoes.TamanhoSemRepeticao` | src/models/Publicacao.ts:119-121 | a set's size is the number of distinct elements it holds |
| `Colecoes.Adicionar` | src/models/Publicacao.ts:108-110 | `Set.add` keeps the set free of repetitions, adds exactly the element, and is a no-op when it is present |
| `Colecoes.Remover` | src/models/Publicacao.ts:115-117 | `Set.delete` removes exactly the element, keeps the set free of repetitions, and is a no-op when it is absent |
| `Colecoes.RemoverMantemOrdem` | src/models/Publicacao.ts:115-117 | deleting a present element from a set takes out exactly its one position, and the other elements keep their order |
| `Colecoes.AdicionarIdempotente` | src/models/Publicacao.ts:108-110 | adding an element twice leaves the set as adding it once |
| `Colecoes.RemoverDesfazAdicionar` | src/models/Categoria.ts:31-42 | deleting an element that was just added, and was absent before, restores the set with its order |
| `Colecoes.InsertionMap.Put` | src/services/BlogService.ts:12-14 | `Map.set` updates the entry, keeps an existing key in place and appends a new key, keeping the map well formed |
| `Colecoes.InsertionMap.Remove` | src/services/BlogService.ts:16-18 | `Map.delete` drops exactly that key from the entries and from the order |
| `Colecoes.InsertionMap.Get` | src/services/BlogService.ts:20-22 | `Map.get` is defined exactly on the stored keys and gives the stored value |
| `Colecoes.InsertionMap.Values` | src/services/BlogService.ts:24-26 | `Array.from(map.values())` lists one value per key, in key order, and every stored value |
| `Colecoes.PutGet` | src/services/BlogService.ts:12-14 | after `set(k, v)`, `get(k)` is `v` and every other key reads as before |
| `Colecoes.RemoveGet` | src/services/BlogService.ts:16-18 | after `delete(k)`, `get(k)` is undefined and every other key reads as before |
| `Colecoes.PutMesmoValor` | src/services/BlogService.ts:81 | saving the publication already stored under its id leaves the map, order included, unchanged |
| `Serializer.Omit` | src/utils/Serializer.ts:11-20 | the copy holds no listed key, every unlisted key of the input, and each with the input's value |
| `Usuarios.Usuario.constructor` | src/models/Usuario.ts:18-23 | stores id, name and password; the role is the one given, or `Leitor` when none is |
| `Usuarios.Usuario.SetNome` | src/models/Usuario.ts:33-35 | sets the name and leaves the role unchanged; id and password are constants |
| `Usuarios.Usuario.AtribuirPapel` | src/models/Usuario.ts:45-47 | sets the role and leaves the name unchanged; id and password are constants |
| `Usuarios.Usuario.ToJSON` | src/models/Usuario.ts:54-61 | the view has exactly the fields id, nome and papel, holding the user's id, name and role |
| `Usuarios.ToJSONIndependeDaSenha` | src/models/Usuario.ts:54-61 | users that differ only in their passwords have the same view, so the view reveals nothing of the password |
| `Usuarios.ToJSONNaoExpoeSenha` | src/models/Usuario.ts:54-61 | the view has no password field, and no field holds the password unless the id, name or role text equals it |
| `Comentarios.ComentarioJSON` | src/models/Publicacao.ts:147 | a comment's view (the `toJSON` of `src/models/Comentários.ts`, lines 35-42) has exactly the fields id, texto, autor and criadoEm, holding the comment's id, text and creation time and its author's view |
| `Comentarios.ComentariosJSON` | src/models/Publicacao.ts:147 | the serialized comments are the comments' views, one per comment and in order |
| `Publicacoes.Resumo` | src/models/Publicacao.ts:126-129 | the summary has at most 100 characters and is a prefix of the content; it is the content when that fits, and 100 characters long otherwise |
| `Publicacoes.CamposDoTipo` | src/models/VideoPost.ts:23-29 | an article adds only `resumo` (undefined when absent), a video only `url` and `duracao`, and none of them clashes with a base field |
| `Publicacoes.Publicacao.Artigo` | src/models/Artigos.ts:9-12 | a new article stores id, title, content, author and the optional `resumo`, with no comments, likes or categories |
| `Publicacoes.Publicacao.VideoPost` | src/models/VideoPost.ts:9-13 | a new video post stores id, title, content, author, `url` and `duracao`, with no comments, likes or categories, and its getters return `url` and `duracao` |
| `Publicacoes.Publicacao.SetTitulo` | src/models/Publicacao.ts:39-41 | sets the title and nothing else |
| `Publicacoes.Publicacao.SetConteudo` | src/models/Publicacao.ts:47-49 | sets the content and nothing else |
| `Publicacoes.Publicacao.AlterarAutor` | src/models/Publicacao.ts:59-61 | sets the author unconditionally and nothing else |
| `Publicacoes.Publicacao.AssociarCategoria` | src/models/Publicacao.ts:78-82 | adds exactly the category's id to the publication's own category set and changes nothing else |
| `Publicacoes.Publicacao.DesassociarCategoria` | src/models/Publicacao.ts:84-86 | removes exactly that id from the publication's own category set and changes nothing else |
| `Publicacoes.Publicacao.AdicionarComentarioObj` | src/models/Publicacao.ts:92-94 | appends the comment at the end and changes nothing else |
| `Publicacoes.Publicacao.AdicionarComentario` | src/models/Publicacao.ts:99-103 | appends exactly one comment, built from the generated id, text and author, keeps every earlier comment, and returns the appended comment |
| `Publicacoes.Publicacao.AdicionarLike` | src/models/Publicacao.ts:108-110 | the user's id is in the like set afterwards; the total grows by one only if the user had not liked it, so a repeated like changes nothing; nothing else changes |
| `Publicacoes.Publicacao.RemoverLike` | src/models/Publicacao.ts:115-117 | removes only that user's id, is a no-op when the user had not liked it, and changes nothing else |
| `Publicacoes.Publicacao.SetResumo` | src/models/Artigos.ts:18-20 | the article's `resumo` getter returns what was set; nothing else changes |
| `Publicacoes.Publicacao.ToJSONBase` | src/models/Publicacao.ts:139-153 | the base view has exactly the eleven base fields: the id, title, content and creation time; the kind's name as `tipo`; the first 100 characters of the content as `resumoConteudo`; the author's view; one view per comment, in order; the liking ids and the category ids, in insertion order; and a `totalLikes` equal to the length of `likes` |
| `Publicacoes.Publicacao.ToJSON` | src/models/Artigos.ts:22-27 | the full view keeps every base field unchanged and adds exactly the kind's own fields |
| `Publicacoes.TotalLikesContaUsuariosDistintos` | src/models/Publicacao.ts:119-121 | the total of likes equals the number of distinct users who liked, so no user counts twice |
| `Publicacoes.TotalLikesDaVisao` | src/models/Publicacao.ts:148-149 | in a publication's view, `totalLikes` is the number of distinct ids that `likes` lists |
| `Publicacoes.CurtirDuasVezes` | src/models/Publicacao.ts:108-110 | two calls of `adicionarLike` by the same user end as one call: only the like set changes, and the total grows by at most one |
| `Publicacoes.ExibirDependeSo` | src/models/Publicacao.ts:134-136 | the display line depends only on id, title, author name, summary, like count and comment count |
| `Publicacoes.ExibirComecaPeloId` | src/models/Publicacao.ts:135 | the display line starts with the bracketed id, the title and " by " |
| `Categorias.Categoria.constructor` | src/models/Categoria.ts:10-14 | a new category stores id and name and has no posts |
| `Categorias.Categoria.SetNome` | src/models/Categoria.ts:24-26 | sets the name and leaves the posts unchanged |
| `Categorias.Categoria.Associar` | src/models/Categoria.ts:31-34 | the post's id joins the category and the category's id joins the post, so both sides are linked; other post ids and the post's other fields are unchanged |
| `Categorias.Categoria.Desassociar` | src/models/Categoria.ts:39-42 | the post's id leaves the category and the category's id leaves the post; other post ids and the post's other fields are unchanged |
| `Categorias.Categoria.ToJSON` | src/models/Categoria.ts:48-54 | the view has exactly id, nome and posts, holding the category's id and name and the post ids in order |
| `Categorias.AssociarEDesassociar` | src/models/Categoria.ts:31-42 | `associar` followed by `desassociar` on a post that was not linked restores the category and every field of the post |
| `Categorias.AssociarDuasVezes` | src/models/Categoria.ts:31-34 | two calls of `associar` on the same objects end as one call, with both sides linked |
| `Permissao.CanDelete` | src/services/PermissaoService.ts:18-26 | an Admin may delete any publication; an Editor or a Leitor only one they wrote |
| `Permissao.CanEdit` | src/services/PermissaoService.ts:31-35 | an Admin or an Editor may edit any publication; a Leitor only one they wrote |
| `Permissao.CanAssignRole` | src/services/PermissaoService.ts:40-42 | a user may assign roles exactly when they are an Admin |
| `Permissao.DeletarImplicaEditar` | src/services/PermissaoService.ts:18-35 | whoever may delete a publication may also edit it |
| `Permissao.EditorEditaQualquerDeletaSoAsProprias` | src/services/PermissaoService.ts:20-33 | an Editor may edit every publication but delete exactly their own |
| `Permissao.LeitorSoAsProprias` | src/services/PermissaoService.ts:24-34 | a Leitor may edit and delete exactly their own publications |
| `Permissao.AtribuirPapelSoAdmin` | src/services/PermissaoService.ts:40-42 | only an Admin may assign roles, and whoever may do so may edit and delete anything |
| `Permissao.DecisaoSoDependeDePapelEAutoria` | src/services/PermissaoService.ts:16-43 | every decision depends only on the role and on whether the requester is the author |
| `BlogServices.Filtrar` | src/services/BlogService.ts:28-34 | the filter keeps exactly the publications that meet the condition, in their original order (a subsequence of the input), without repeating any |
| `BlogServices.InMemoryPostRepository.constructor` | src/services/BlogService.ts:10 | the repository starts empty |
| `BlogServices.InMemoryPostRepository.Save` | src/services/BlogService.ts:12-14 | an upsert under the publication's own id, keeping every publication under its own id |
| `BlogServices.InMemoryPostRepository.Delete` | src/services/BlogService.ts:16-18 | removes the entry under that id, if any, and nothing else |
| `BlogServices.InMemoryPostRepository.FindById` | src/services/BlogService.ts:20-22 | finds a publication exactly when one is stored under that id, and it has that id |
| `BlogServices.InMemoryPostRepository.FindAll` | src/services/BlogService.ts:24-26 | lists every stored publication exactly once, in insertion order |
| `BlogServices.InMemoryPostRepository.FindByAuthor` | src/services/BlogService.ts:28-30 | returns exactly the stored publications whose author has that id, each once, in insertion order |
| `BlogServices.InMemoryPostRepository.FindByCategory` | src/services/BlogService.ts:32-34 | returns exactly the stored publications whose own category set holds that id, each once, in insertion order |
| `BlogServices.BlogService.constructor` | src/services/BlogService.ts:45-48 | a new service has an empty repository and no categories |
| `BlogServices.BlogService.CriarPublicacao` | src/services/BlogService.ts:52-55 | afterwards the publication is found under its id, every other id finds what it found before, and the publication is returned |
| `BlogServices.BlogService.DeletarPublicacao` | src/services/BlogService.ts:59-69 | an absent id gives `{false, "Publicação não encontrada"}`, a refused requester `{false, "Permissão negada: …"}`, both with the repository unchanged; otherwise `{true, …}`, the id is gone and every other entry is unchanged |
| `BlogServices.BlogService.EditarPublicacao` | src/services/BlogService.ts:73-83 | fails with "not found" or "permission denied" changing nothing; otherwise sets title and content only when supplied and non-empty, keeps every other field and the repository, and returns the publication |
| `BlogServices.BlogService.BuscarPorAutor` | src/services/BlogService.ts:87-89 | returns exactly the stored publications whose author has that id, each once, in insertion order |
| `BlogServices.BlogService.BuscarPorCategoria` | src/services/BlogService.ts:94-96 | returns exactly the stored publications whose own category set holds that id, each once, in insertion order |
| `BlogServices.BlogService.ListarTodas` | src/services/BlogService.ts:101-103 | lists every stored publication exactly once |
| `BlogServices.BlogService.CriarCategoria` | src/services/BlogService.ts:108-113 | a new, empty category with the given name is registered under the generated id and found there; every other id finds what it found before |
| `BlogServices.BlogService.ObterCategoria` | src/services/BlogService.ts:115-117 | finds a category exactly when one is registered under that id, and it has that id |
| `BlogServices.BlogService.ListarCategorias` | src/services/BlogService.ts:119-121 | lists one category per registered id, and every registered category |
| `BlogServices.CenarioDeExclusao` | src/index.ts:82-92 | with an Editor's article and an Admin's video stored, a Leitor's attempt to delete the article is refused with "Permissão negada", an Admin's attempt succeeds, and the listing then holds only the video |

## Left out

- Clocks: `new Date()` in the publication and comment constructors is a parameter, the ISO-8601 text of the instant (`criadoEm`, `agora`). No `Date` arithmetic or formatting is modelled.
- Id generators: the generator callbacks of `BlogService` and `adicionarComentario` are replaced by the id they would return (`novoId`). Uniqueness of generated ids is not modelled; a repeated id overwrites, as the code does.
- `this.constructor.name` is the kind's name taken from the `tipo` payload (`NomeDoTipo`).
- Text rendering: `JSON.stringify` is not modelled. The views are maps from field name to value. The text a role is serialized as (`PapelTexto`) is an assumption, because `src/models/Post.js` (which defines `Papel` and `ID`) is not part of this model.
- Strings are sequences of Unicode scalar values. JavaScript measures `length` and `slice` in UTF-16 code units, so for text outside the Basic Multilingual Plane the 100-character summary bound counts differently, and a surrogate pair that `slice` would split is not modelled.
- `duracao` is a JavaScript number; it is modelled as an integer (seconds). Fractional durations are not modelled.
- `PermissaoService` has no state. Its three methods are module-level functions, and `BlogService` calls them directly instead of through a stored instance.
- `Publicacao.associarCategoria` receives the category object but reads only its id. It is modelled as taking that id, because the category module depends on the publication module.
- The getters that only return a field (`id`, `titulo`, `conteudo`, `autor`, `criadoEm`, `comentarios`, `categorias`, `postIds`, `url`, `duracao`, `resumo`, `obterTotalLikes`, `resumoConteudo`) are field reads or one-line functions. `comentarios` and `categorias` return copies in the source; here they return the values, which no caller can alter.
- Publicacoes.Publicacao.Exibir: the exact line is the function's definition; its contracts state only what the line is built from and how it begins.
- Direct mutation of a shared publication or user by a holder of the reference, outside the listed operations, is not modelled.
- `src/index.ts` is a console demo. Only its deletion scenario is modelled (`CenarioDeExclusao`).
- `src/models/Comentários.ts` is modelled only as far as publications need it: the comment value and its view.
