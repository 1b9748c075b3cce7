/** Users: an identity, a display name, a stored password and a role. */
module Usuarios {

  import opened Basico
  import opened Wrappers
  import opened Json

  class Usuario {
    const id: ID
    var nome: string
    /** Stored as given and never read by any operation but the constructor. */
    const senha: string
    var papel: Papel

    /** The role argument is optional and defaults to `Leitor`. */
    constructor (id: ID, nome: string, senha: string, papel: Option<Papel>)
      ensures this.id == id && this.nome == nome && this.senha == senha
      ensures papel.Some? ==> this.papel == papel.value
      ensures papel.None? ==> this.papel == Leitor
    {
      this.id := id;
      this.nome := nome;
      this.senha := senha;
      this.papel := if papel.Some? then papel.value else Leitor;
    }

    /** The `nome` setter: always succeeds. */
    method SetNome(novo: string)
      modifies this
      ensures nome == novo && papel == old(papel)
    {
      nome := novo;
    }

    /** `atribuirPapel`: no permission check of its own. */
    method AtribuirPapel(novo: Papel)
      modifies this
      ensures papel == novo && nome == old(nome)
    {
      papel := novo;
    }

    /** The serialized view: id, name and role, and no password field. */
    function ToJSON(): (r: Objeto)
      reads this
      ensures r.Keys == {"id", "nome", "papel"}
      ensures r["id"] == JStr(id) && r["nome"] == JStr(nome)
      ensures r["papel"].JStr? && r["papel"].s == PapelTexto(papel)
    {
      map["id" := JStr(id), "nome" := JStr(nome), "papel" := JStr(PapelTexto(papel))]
    }
  }

  /** The serialized view does not depend on the password: two users that
      differ only in their passwords serialize identically. */
  lemma ToJSONIndependeDaSenha(u: Usuario, v: Usuario)
    requires u.id == v.id && u.nome == v.nome && u.papel == v.papel
    ensures u.ToJSON() == v.ToJSON()
  {
  }

  /** Whatever the password, no field of the serialized view carries it
      unless the id or the name happens to be the same text. */
  lemma ToJSONNaoExpoeSenha(u: Usuario)
    ensures "senha" !in u.ToJSON()
    ensures forall k :: k in u.ToJSON() && u.ToJSON()[k] == JStr(u.senha) ==>
              u.senha == u.id || u.senha == u.nome || u.senha == PapelTexto(u.papel)
  {
  }
}
