/** The authorization policy: stateless decisions on a requesting user's role
    and on whether that user is the publication's author.

    Admin: may edit and delete any publication, and may assign roles.
    Editor: may edit any publication, but delete only their own.
    Leitor: may edit and delete only their own. */
module Permissao {

  import opened Basico
  import opened Usuarios
  import opened Publicacoes

  /** `canDelete`. */
  function CanDelete(usuario: Usuario, publicacao: Publicacao): (permitido: bool)
    reads usuario, publicacao
    ensures usuario.papel == Admin ==> permitido
    ensures usuario.papel != Admin ==> (permitido <==> usuario.id == publicacao.autor.id)
  {
    if usuario.papel == Admin then true
    else if usuario.papel == Editor then usuario.id == publicacao.autor.id
    else usuario.id == publicacao.autor.id
  }

  /** `canEdit`. */
  function CanEdit(usuario: Usuario, publicacao: Publicacao): (permitido: bool)
    reads usuario, publicacao
    ensures usuario.papel in {Admin, Editor} ==> permitido
    ensures usuario.papel == Leitor ==> (permitido <==> usuario.id == publicacao.autor.id)
  {
    if usuario.papel == Admin then true
    else if usuario.papel == Editor then true
    else usuario.id == publicacao.autor.id
  }

  /** `canAssignRole`. */
  function CanAssignRole(usuario: Usuario): (permitido: bool)
    reads usuario
    ensures permitido <==> usuario.papel == Admin
  {
    usuario.papel == Admin
  }

  /** Whoever may delete a publication may also edit it. */
  lemma DeletarImplicaEditar(usuario: Usuario, publicacao: Publicacao)
    ensures CanDelete(usuario, publicacao) ==> CanEdit(usuario, publicacao)
  {
  }

  /** The Editor asymmetry: any publication may be edited, only one's own
      deleted. */
  lemma EditorEditaQualquerDeletaSoAsProprias(usuario: Usuario, publicacao: Publicacao)
    requires usuario.papel == Editor
    ensures CanEdit(usuario, publicacao)
    ensures CanDelete(usuario, publicacao) <==> usuario.id == publicacao.autor.id
  {
  }

  /** A Leitor may edit or delete exactly their own publications. */
  lemma LeitorSoAsProprias(usuario: Usuario, publicacao: Publicacao)
    requires usuario.papel == Leitor
    ensures CanEdit(usuario, publicacao) <==> usuario.id == publicacao.autor.id
    ensures CanDelete(usuario, publicacao) <==> usuario.id == publicacao.autor.id
  {
  }

  /** Only an Admin may assign roles, and whoever may assign roles may edit
      and delete any publication. */
  lemma AtribuirPapelSoAdmin(usuario: Usuario, publicacao: Publicacao)
    ensures CanAssignRole(usuario) <==> usuario.papel == Admin
    ensures CanAssignRole(usuario) ==> CanDelete(usuario, publicacao) && CanEdit(usuario, publicacao)
  {
  }

  /** The decisions depend on the role and on whether the requester is the
      author, and on nothing else: not on names, passwords, content, likes,
      comments or categories. */
  lemma DecisaoSoDependeDePapelEAutoria(u1: Usuario, p1: Publicacao, u2: Usuario, p2: Publicacao)
    requires u1.papel == u2.papel
    requires (u1.id == p1.autor.id) == (u2.id == p2.autor.id)
    ensures CanDelete(u1, p1) == CanDelete(u2, p2)
    ensures CanEdit(u1, p1) == CanEdit(u2, p2)
    ensures CanAssignRole(u1) == CanAssignRole(u2)
  {
  }
}
