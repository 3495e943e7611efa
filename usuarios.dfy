/** The profile service's handlers (criar, listar, buscarPorId, atualizar,
    remover) over the `usuarios` table, keyed by the id the caller supplies.
    The store refuses a row whose role is outside the ENUM or whose email
    another row already has, and a create under an id already in use; the
    parameter `escritaOk` says whether the statement runs at all (a lost
    connection, say). Each refusal and each failure is answered 500 and
    leaves the table as it was. */
module Usuarios {
  import opened Comum

  const CamposObrigatorios: string := "Campos obrigatórios: id, nome, email, tipo"
  const NaoEncontrado: string := "Usuário não encontrado"
  const ErroCriar: string := "Erro interno ao criar usuário"
  const ErroAtualizar: string := "Erro interno ao atualizar usuário"
  const ErroRemover: string := "Erro interno ao remover usuário"

  /** One row of `usuarios`, without its id. */
  datatype Perfil = Perfil(nome: string, email: string, tipo: string)

  /** A row together with its id. */
  datatype Registro = Registro(id: int, perfil: Perfil)

  /** The body of `POST /usuarios/interno`. */
  datatype NovoPerfil = NovoPerfil(id: Option<int>, nome: Option<string>, email: Option<string>, tipo: Option<string>)

  /** The body of `PUT /usuarios/:id`. */
  datatype Alteracao = Alteracao(nome: Option<string>, email: Option<string>, tipo: Option<string>)

  /** The required-field check of `criar`: all four truthy, so id 0 is
      refused. The role is not checked here. */
  function ValidarPerfil(b: NovoPerfil): (e: Option<Falha>)
    ensures e.None? <==> PreenchidoNum(b.id) && Preenchido(b.nome) && Preenchido(b.email) && Preenchido(b.tipo)
    ensures e.Some? ==> e.value == Falha(400, CamposObrigatorios)
  {
    if PreenchidoNum(b.id) && Preenchido(b.nome) && Preenchido(b.email) && Preenchido(b.tipo) then None
    else Some(Falha(400, CamposObrigatorios))
  }

  /** Whether the table's constraints let row `id` hold `p`: the role is in
      the ENUM and no other row has the same email. */
  predicate Aceita(linhas: map<int, Perfil>, id: int, p: Perfil)
  {
    p.tipo in TiposValidos && forall k :: k in linhas && k != id ==> linhas[k].email != p.email
  }

  /** `Usuario.update({ nome, email, tipo })` on one row: a field the body
      omits keeps its value; one it carries overwrites it. */
  function Mesclar(p: Perfil, b: Alteracao): (r: Perfil)
    ensures b.nome.Some? ==> r.nome == b.nome.value
    ensures b.nome.None? ==> r.nome == p.nome
    ensures b.email.Some? ==> r.email == b.email.value
    ensures b.email.None? ==> r.email == p.email
    ensures b.tipo.Some? ==> r.tipo == b.tipo.value
    ensures b.tipo.None? ==> r.tipo == p.tipo
    ensures r == p <==>
      && (b.nome.Some? ==> b.nome.value == p.nome)
      && (b.email.Some? ==> b.email.value == p.email)
      && (b.tipo.Some? ==> b.tipo.value == p.tipo)
  {
    Perfil(if b.nome.Some? then b.nome.value else p.nome,
           if b.email.Some? then b.email.value else p.email,
           if b.tipo.Some? then b.tipo.value else p.tipo)
  }

  /** Every row satisfies the constraints with respect to the others: the
      emails are unique and every role is in the ENUM. */
  ghost predicate Consistente(linhas: map<int, Perfil>)
  {
    forall id :: id in linhas ==> Aceita(linhas, id, linhas[id])
  }

  /** Adding or overwriting one row the constraints accept keeps them all. */
  lemma {:induction false} GravarPreserva(linhas: map<int, Perfil>, id: int, p: Perfil)
    requires Consistente(linhas)
    requires Aceita(linhas, id, p)
    ensures Consistente(linhas[id := p])
  {
    var novas := linhas[id := p];
    forall k | k in novas
      ensures Aceita(novas, k, novas[k])
    {
      if k != id {
        assert Aceita(linhas, k, linhas[k]);
        forall j | j in novas && j != k
          ensures novas[j].email != novas[k].email
        {
          if j == id {
            assert linhas[k].email != p.email;
          }
        }
      }
    }
  }

  class Perfis {
    var linhas: map<int, Perfil>

    ghost predicate Valid()
      reads this
    {
      Consistente(linhas)
    }

    constructor ()
      ensures Valid() && linhas == map[]
    {
      linhas := map[];
    }

    /** `criar`: 400 with nothing stored when a field is missing; otherwise
        the row goes in under the id the caller gave, unless the store refuses
        it (id in use, email taken, role outside the ENUM) or the statement
        fails, which is 500. */
    method Criar(b: NovoPerfil, escritaOk: bool) returns (r: Resposta<Registro>)
      requires Valid()
      modifies this
      ensures Valid()
      ensures ValidarPerfil(b).Some? ==> r == Erro(400, CamposObrigatorios) && linhas == old(linhas)
      ensures ValidarPerfil(b).None? ==>
        var id, p := b.id.value, Perfil(b.nome.value, b.email.value, b.tipo.value);
        if escritaOk && id !in old(linhas) && Aceita(old(linhas), id, p)
        then r == Sucesso(201, Registro(id, p)) && linhas == old(linhas)[id := p]
        else r == Erro(500, ErroCriar) && linhas == old(linhas)
    {
      var falha := ValidarPerfil(b);
      if falha.Some? {
        r := Erro(400, CamposObrigatorios);
        return;
      }
      var id, p := b.id.value, Perfil(b.nome.value, b.email.value, b.tipo.value);
      if !escritaOk || id in linhas || !Aceita(linhas, id, p) {
        r := Erro(500, ErroCriar);
        return;
      }
      GravarPreserva(linhas, id, p);
      linhas := linhas[id := p];
      r := Sucesso(201, Registro(id, p));
    }

    /** `listar`: every row of the table. */
    method Listar() returns (r: Resposta<map<int, Perfil>>)
      ensures r.Sucesso? && r.status == 200
      ensures r.corpo.Keys == linhas.Keys && forall id :: id in linhas ==> r.corpo[id] == linhas[id]
    {
      r := Sucesso(200, linhas);
    }

    /** `buscarPorId`: the row with 200, or 404 when there is none. */
    method BuscarPorId(id: int) returns (r: Resposta<Registro>)
      ensures id !in linhas <==> r == Erro(404, NaoEncontrado)
      ensures id in linhas ==> r == Sucesso(200, Registro(id, linhas[id]))
    {
      if id !in linhas {
        r := Erro(404, NaoEncontrado);
      } else {
        r := Sucesso(200, Registro(id, linhas[id]));
      }
    }

    /** `atualizar`: a failed statement is 500. Otherwise the answer follows
        the affected-row count, which MySQL reports as the number of rows
        whose values change (the table has no timestamp column): 404 with
        nothing changed when no row has the id, and also when the body
        changes nothing in it (an empty body included). Otherwise only that
        row's name, email and role are overwritten (500 and nothing changed if
        the store refuses), and the row is read back. */
    method Atualizar(id: int, b: Alteracao, escritaOk: bool) returns (r: Resposta<Registro>)
      requires Valid()
      modifies this
      ensures Valid()
      ensures !escritaOk ==> r == Erro(500, ErroAtualizar) && linhas == old(linhas)
      ensures escritaOk && id !in old(linhas) ==> r == Erro(404, NaoEncontrado) && linhas == old(linhas)
      ensures escritaOk && id in old(linhas) && Mesclar(old(linhas)[id], b) == old(linhas)[id] ==>
        r == Erro(404, NaoEncontrado) && linhas == old(linhas)
      ensures escritaOk && id in old(linhas) && Mesclar(old(linhas)[id], b) != old(linhas)[id] ==>
        var novo := Mesclar(old(linhas)[id], b);
        if Aceita(old(linhas), id, novo)
        then r == Sucesso(200, Registro(id, novo)) && linhas == old(linhas)[id := novo]
        else r == Erro(500, ErroAtualizar) && linhas == old(linhas)
    {
      if !escritaOk {
        r := Erro(500, ErroAtualizar);
        return;
      }
      if id !in linhas || Mesclar(linhas[id], b) == linhas[id] {
        r := Erro(404, NaoEncontrado);
        return;
      }
      var novo := Mesclar(linhas[id], b);
      if !Aceita(linhas, id, novo) {
        r := Erro(500, ErroAtualizar);
        return;
      }
      GravarPreserva(linhas, id, novo);
      linhas := linhas[id := novo];
      r := Sucesso(200, Registro(id, linhas[id]));
    }

    /** `remover`: a failed statement is 500 with nothing changed; 404 when
        no row has the id; otherwise exactly that row is removed, every other
        row untouched, and 204 returned. */
    method Remover(id: int, escritaOk: bool) returns (r: Resposta<()>)
      requires Valid()
      modifies this
      ensures Valid()
      ensures !escritaOk ==> r == Erro(500, ErroRemover) && linhas == old(linhas)
      ensures escritaOk && id !in old(linhas) ==> r == Erro(404, NaoEncontrado) && linhas == old(linhas)
      ensures escritaOk && id in old(linhas) ==>
        && r == Sucesso(204, ())
        && linhas.Keys == old(linhas).Keys - {id}
        && forall k :: k in linhas ==> linhas[k] == old(linhas)[k]
    {
      if !escritaOk {
        r := Erro(500, ErroRemover);
        return;
      }
      if id !in linhas {
        r := Erro(404, NaoEncontrado);
        return;
      }
      linhas := linhas - {id};
      r := Sucesso(204, ());
    }
  }
}
