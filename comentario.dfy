/** Comments: immutable text attributed to a user. */
module Comentarios {

  import opened Basico
  import opened Json
  import opened Usuarios

  /** A comment; `criadoEm` is the ISO-8601 text of its creation instant,
      which the caller's clock supplies. */
  datatype Comentario = Comentario(id: ID, texto: string, autor: Usuario, criadoEm: string)

  /** The serialized view of a comment, embedding its author's view. */
  function ComentarioJSON(c: Comentario): (r: Objeto)
    reads c.autor
    ensures r.Keys == {"id", "texto", "autor", "criadoEm"}
    ensures r["id"] == JStr(c.id) && r["texto"] == JStr(c.texto)
    ensures r["criadoEm"] == JStr(c.criadoEm)
    ensures r["autor"] == JObj(c.autor.ToJSON())
  {
    map["id" := JStr(c.id), "texto" := JStr(c.texto),
        "autor" := JObj(c.autor.ToJSON()), "criadoEm" := JStr(c.criadoEm)]
  }

  /** The users whose views the serialized comments embed. */
  function Autores(cs: seq<Comentario>): set<Usuario>
  {
    set c | c in cs :: c.autor
  }

  /** `comentarios.map((c) => c.toJSON())`. */
  function ComentariosJSON(cs: seq<Comentario>): (r: seq<Json>)
    reads Autores(cs)
    ensures |r| == |cs|
    ensures forall i :: 0 <= i < |cs| ==> r[i] == JObj(ComentarioJSON(cs[i]))
  {
    if cs == [] then []
    else
      assert Autores(cs[1..]) <= Autores(cs);
      [JObj(ComentarioJSON(cs[0]))] + ComentariosJSON(cs[1..])
  }
}
