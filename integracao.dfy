/** How the registration saga's remote call meets the profile service:
    `POST /usuarios/interno` runs verificarChaveInterna and then `criar`. */
module Integracao {
  import opened Comum
  import Autenticacao
  import Middlewares
  import Usuarios

  /** The JSON body the saga posts, as the profile service reads it. */
  function CorpoEnviado(c: Autenticacao.ChamadaPerfil): (b: Usuarios.NovoPerfil)
    ensures b.id == Some(c.id) && b.nome == Some(c.nome) && b.email == Some(c.email) && b.tipo == Some(c.tipo)
  {
    Usuarios.NovoPerfil(Some(c.id), Some(c.nome), Some(c.email), Some(c.tipo))
  }

  /** Every request the saga sends passes the profile service's required-field
      check, and it passes the machine-key gate exactly when both services
      are configured with the same non-empty key. The profile is created under
      the credential's own id. */
  lemma ChamadaDoCadastro(c: Autenticacao.ChamadaPerfil, segredo: Option<string>)
    requires Autenticacao.ChamadaBemFormada(c)
    ensures Usuarios.ValidarPerfil(CorpoEnviado(c)).None?
    ensures CorpoEnviado(c).id.value == c.id
    ensures Middlewares.VerificarChaveInterna(c.chaveInterna, segredo, None).Segue? <==>
      Preenchido(segredo) && c.chaveInterna == segredo
  {
  }
}
