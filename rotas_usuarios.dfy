/** The gate order of the profile service's routes. `GET /usuarios` runs
    verificarToken and then verificarAdmin; `GET`, `PUT` and `DELETE
    /usuarios/:id` run verificarAdmin alone, on a request to which nothing has
    attached a principal. */
module RotasUsuarios {
  import opened Comum
  import opened Middlewares
  import Usuarios

  /** verificarToken followed by verificarAdmin, as `GET /usuarios` runs them:
      a request reaches the handler exactly when its bearer token verifies to
      an admin principal; a missing or rejected token is answered 401 and a
      verified non-admin 403. */
  function PortaoAdmin(autorizacao: Option<string>, verificar: string -> Option<Principal>): (p: Passo)
    ensures p.Segue? <==>
      && autorizacao.Some? && Prefixo <= autorizacao.value
      && var dados := verificar(TokenDoCabecalho(autorizacao.value));
         dados.Some? && dados.value.tipo == Admin
    ensures p.Segue? ==> p.usuario == verificar(TokenDoCabecalho(autorizacao.value))
    ensures p.Recusa? && p.status == 401 <==> VerificarToken(autorizacao, verificar).Recusa?
    ensures p.Recusa? ==> p.status == 401 || p == Recusa(403, AcessoRestrito)
  {
    match VerificarToken(autorizacao, verificar)
    case Recusa(status, erro) => Recusa(status, erro)
    case Segue(usuario) => VerificarAdmin(usuario)
  }

  /** The `/:id` routes as written: verificarAdmin without verificarToken in
      front, so `req.usuario` is always undefined when the gate runs. The
      header and the verifier are not consulted. */
  function PortaoAdminSemToken(autorizacao: Option<string>, verificar: string -> Option<Principal>): (p: Passo)
    ensures p.Recusa? && p.status == 403
  {
    VerificarAdmin(None)
  }

  /** As written, an administrator with a valid token that `GET /usuarios`
      accepts is still refused 403 by `GET`, `PUT` and `DELETE /usuarios/:id`. */
  lemma {:induction false} AdminRecusadoSemToken(autorizacao: Option<string>, verificar: string -> Option<Principal>)
    requires PortaoAdmin(autorizacao, verificar).Segue?
    ensures PortaoAdminSemToken(autorizacao, verificar) == Recusa(403, AcessoRestrito)
    ensures PortaoAdmin(autorizacao, verificar).usuario.value.tipo == Admin
  {
  }

  /** A concrete request that shows it: a header `"Bearer t"` whose token
      verifies to the admin with id 1. */
  lemma ExemploAdminRecusado()
    ensures var verificar := (t: string) => Some(Principal(1, Admin));
      && PortaoAdmin(Some(Prefixo + "t"), verificar) == Segue(Some(Principal(1, Admin)))
      && PortaoAdminSemToken(Some(Prefixo + "t"), verificar) == Recusa(403, AcessoRestrito)
  {
  }

  /** `GET /usuarios`: the gate's refusal, or every profile. */
  method RotaListar(perfis: Usuarios.Perfis, autorizacao: Option<string>, verificar: string -> Option<Principal>)
    returns (r: Resposta<map<int, Usuarios.Perfil>>)
    ensures PortaoAdmin(autorizacao, verificar).Recusa? ==>
      r == Erro(PortaoAdmin(autorizacao, verificar).status, PortaoAdmin(autorizacao, verificar).erro)
    ensures PortaoAdmin(autorizacao, verificar).Segue? ==>
      && r.Sucesso? && r.status == 200 && r.corpo.Keys == perfis.linhas.Keys
      && forall id :: id in perfis.linhas ==> r.corpo[id] == perfis.linhas[id]
  {
    var passo := PortaoAdmin(autorizacao, verificar);
    if passo.Recusa? {
      r := Erro(passo.status, passo.erro);
      return;
    }
    r := perfis.Listar();
  }

  /** `GET /usuarios/:id` behind the admin gate with its token check. */
  method RotaBuscarPorId(perfis: Usuarios.Perfis, autorizacao: Option<string>, verificar: string -> Option<Principal>, id: int)
    returns (r: Resposta<Usuarios.Registro>)
    ensures PortaoAdmin(autorizacao, verificar).Recusa? ==>
      r == Erro(PortaoAdmin(autorizacao, verificar).status, PortaoAdmin(autorizacao, verificar).erro)
    ensures PortaoAdmin(autorizacao, verificar).Segue? && id in perfis.linhas ==>
      r == Sucesso(200, Usuarios.Registro(id, perfis.linhas[id]))
    ensures PortaoAdmin(autorizacao, verificar).Segue? && id !in perfis.linhas ==>
      r == Erro(404, Usuarios.NaoEncontrado)
  {
    var passo := PortaoAdmin(autorizacao, verificar);
    if passo.Recusa? {
      r := Erro(passo.status, passo.erro);
      return;
    }
    r := perfis.BuscarPorId(id);
  }

  /** `PUT /usuarios/:id` behind the admin gate: a refused request changes nothing. */
  method RotaAtualizar(perfis: Usuarios.Perfis, autorizacao: Option<string>, verificar: string -> Option<Principal>,
                       id: int, b: Usuarios.Alteracao, escritaOk: bool)
    returns (r: Resposta<Usuarios.Registro>)
    requires perfis.Valid()
    modifies perfis
    ensures perfis.Valid()
    ensures PortaoAdmin(autorizacao, verificar).Recusa? ==>
      && r == Erro(PortaoAdmin(autorizacao, verificar).status, PortaoAdmin(autorizacao, verificar).erro)
      && perfis.linhas == old(perfis.linhas)
    ensures PortaoAdmin(autorizacao, verificar).Segue? && !escritaOk ==>
      r == Erro(500, Usuarios.ErroAtualizar) && perfis.linhas == old(perfis.linhas)
    ensures
      && PortaoAdmin(autorizacao, verificar).Segue? && escritaOk
      && (id !in old(perfis.linhas) || Usuarios.Mesclar(old(perfis.linhas)[id], b) == old(perfis.linhas)[id])
      ==>
      r == Erro(404, Usuarios.NaoEncontrado) && perfis.linhas == old(perfis.linhas)
    ensures
      && PortaoAdmin(autorizacao, verificar).Segue? && escritaOk && id in old(perfis.linhas)
      && Usuarios.Mesclar(old(perfis.linhas)[id], b) != old(perfis.linhas)[id]
      ==>
      var novo := Usuarios.Mesclar(old(perfis.linhas)[id], b);
      if Usuarios.Aceita(old(perfis.linhas), id, novo)
      then r == Sucesso(200, Usuarios.Registro(id, novo)) && perfis.linhas == old(perfis.linhas)[id := novo]
      else r == Erro(500, Usuarios.ErroAtualizar) && perfis.linhas == old(perfis.linhas)
  {
    var passo := PortaoAdmin(autorizacao, verificar);
    if passo.Recusa? {
      r := Erro(passo.status, passo.erro);
      return;
    }
    r := perfis.Atualizar(id, b, escritaOk);
  }

  /** `DELETE /usuarios/:id` behind the admin gate: a refused request changes nothing. */
  method RotaRemover(perfis: Usuarios.Perfis, autorizacao: Option<string>, verificar: string -> Option<Principal>,
                     id: int, escritaOk: bool)
    returns (r: Resposta<()>)
    requires perfis.Valid()
    modifies perfis
    ensures perfis.Valid()
    ensures PortaoAdmin(autorizacao, verificar).Recusa? ==>
      && r == Erro(PortaoAdmin(autorizacao, verificar).status, PortaoAdmin(autorizacao, verificar).erro)
      && perfis.linhas == old(perfis.linhas)
    ensures PortaoAdmin(autorizacao, verificar).Segue? && !escritaOk ==>
      r == Erro(500, Usuarios.ErroRemover) && perfis.linhas == old(perfis.linhas)
    ensures PortaoAdmin(autorizacao, verificar).Segue? && escritaOk && id !in old(perfis.linhas) ==>
      r == Erro(404, Usuarios.NaoEncontrado) && perfis.linhas == old(perfis.linhas)
    ensures PortaoAdmin(autorizacao, verificar).Segue? && escritaOk && id in old(perfis.linhas) ==>
      && r == Sucesso(204, ())
      && perfis.linhas.Keys == old(perfis.linhas).Keys - {id}
      && forall k :: k in perfis.linhas ==> perfis.linhas[k] == old(perfis.linhas)[k]
  {
    var passo := PortaoAdmin(autorizacao, verificar);
    if passo.Recusa? {
      r := Erro(passo.status, passo.erro);
      return;
    }
    r := perfis.Remover(id, escritaOk);
  }

  /** `POST /usuarios/interno`: the machine-key gate, then `criar`; a refused
      request stores nothing. */
  method RotaInterna(perfis: Usuarios.Perfis, chave: Option<string>, segredo: Option<string>, b: Usuarios.NovoPerfil,
                     escritaOk: bool)
    returns (r: Resposta<Usuarios.Registro>)
    requires perfis.Valid()
    modifies perfis
    ensures perfis.Valid()
    ensures !(Preenchido(chave) && chave == segredo) ==>
      r == Erro(403, AcessoInternoNegado) && perfis.linhas == old(perfis.linhas)
    ensures Preenchido(chave) && chave == segredo && Usuarios.ValidarPerfil(b).Some? ==>
      r == Erro(400, Usuarios.CamposObrigatorios) && perfis.linhas == old(perfis.linhas)
    ensures Preenchido(chave) && chave == segredo && Usuarios.ValidarPerfil(b).None? ==>
      var id, p := b.id.value, Usuarios.Perfil(b.nome.value, b.email.value, b.tipo.value);
      if escritaOk && id !in old(perfis.linhas) && Usuarios.Aceita(old(perfis.linhas), id, p)
      then r == Sucesso(201, Usuarios.Registro(id, p)) && perfis.linhas == old(perfis.linhas)[id := p]
      else r == Erro(500, Usuarios.ErroCriar) && perfis.linhas == old(perfis.linhas)
  {
    var passo := VerificarChaveInterna(chave, segredo, None);
    if passo.Recusa? {
      r := Erro(passo.status, passo.erro);
      return;
    }
    r := perfis.Criar(b, escritaOk);
  }
}
