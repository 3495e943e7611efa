/** The appointment service's handlers (listar, buscarPorId, criar,
    atualizar, remover) over the `consultas` table. Every request arrives with
    the principal its token verified to. The table is a map from the
    auto-increment id to the row; the store's own refusals are the ENUM check
    on `status` and a parameter `escritaOk` for every other reason a write
    can fail. */
module Consultas {
  import opened Comum

  /** A timestamp (`new Date()`, the `criado_em` default), kept opaque. */
  type Instante = int

  const Agendada: string := "agendada"
  const Realizada: string := "realizada"
  const Cancelada: string := "cancelada"

  /** The `status` ENUM, and the list the update handler checks against. */
  const StatusValidos: seq<string> := [Agendada, Realizada, Cancelada]

  const NaoEncontrada: string := "Consulta não encontrada"
  const AcessoNegado: string := "Acesso negado"
  const CamposObrigatorios: string := "Campos obrigatórios: paciente_id, medico_id, data_consulta"
  const PacienteSoParaSi: string := "Paciente só pode criar consulta para si mesmo"
  const MedicoSoParaSi: string := "Médico só pode criar consulta para si mesmo"
  const StatusInvalido: string := "Status inválido. Use: agendada, realizada ou cancelada"
  const ErroCriar: string := "Erro interno ao criar consulta"
  const ErroAtualizar: string := "Erro interno ao atualizar consulta"
  const ErroRemover: string := "Erro interno ao remover consulta"

  /** One row of `consultas`, without its id. */
  datatype Consulta = Consulta(
    pacienteId: int,
    medicoId: int,
    dataConsulta: string,
    descricao: Option<string>,
    diagnostico: Option<string>,
    status: string,
    criadoEm: Instante,
    atualizadoEm: Option<Instante>)

  /** A row together with its id, as the handlers return it. */
  datatype Registro = Registro(id: int, consulta: Consulta)

  /** The query string of an admin listing. A present id is a non-empty query
      value (truthy even when it reads `"0"`), taken as the integer the store
      compares the column with. */
  datatype Parametros = Parametros(status: Option<string>, medicoId: Option<int>, pacienteId: Option<int>)

  /** The `where` object given to `findAll`: one optional exact-match
      condition per column; with no condition it selects every row. */
  datatype Filtro = Filtro(status: Option<string>, medicoId: Option<int>, pacienteId: Option<int>)

  predicate Satisfaz(f: Filtro, c: Consulta)
  {
    && (f.status.Some? ==> c.status == f.status.value)
    && (f.medicoId.Some? ==> c.medicoId == f.medicoId.value)
    && (f.pacienteId.Some? ==> c.pacienteId == f.pacienteId.value)
  }

  /** Builds `filtros` field by field. A patient sees exactly its own
      appointments and a doctor exactly its own, whatever the query says; an
      admin filters only on the truthy query parameters; any other role string
      adds no condition at all. */
  method MontarFiltro(u: Principal, q: Parametros) returns (f: Filtro)
    ensures u.tipo == Paciente ==> forall c :: Satisfaz(f, c) <==> c.pacienteId == u.id
    ensures u.tipo == Medico ==> forall c :: Satisfaz(f, c) <==> c.medicoId == u.id
    ensures u.tipo == Admin ==> forall c :: Satisfaz(f, c) <==>
      && (Preenchido(q.status) ==> c.status == q.status.value)
      && (q.medicoId.Some? ==> c.medicoId == q.medicoId.value)
      && (q.pacienteId.Some? ==> c.pacienteId == q.pacienteId.value)
    ensures u.tipo !in TiposValidos ==> forall c :: Satisfaz(f, c)
  {
    f := Filtro(None, None, None);
    if u.tipo == Paciente {
      f := f.(pacienteId := Some(u.id));
    } else if u.tipo == Medico {
      f := f.(medicoId := Some(u.id));
    } else if u.tipo == Admin {
      if Preenchido(q.status) {
        f := f.(status := q.status);
      }
      if q.medicoId.Some? {
        f := f.(medicoId := q.medicoId);
      }
      if q.pacienteId.Some? {
        f := f.(pacienteId := q.pacienteId);
      }
    }
  }

  /** Who may read, change or delete an appointment: an admin any of them, a
      patient those it is the patient of, a doctor those it is the doctor of. */
  predicate Dono(u: Principal, c: Consulta)
  {
    || u.tipo == Admin
    || (u.tipo == Paciente && c.pacienteId == u.id)
    || (u.tipo == Medico && c.medicoId == u.id)
  }

  datatype Acesso = Inexistente | Negado | Permitido

  /** The decision read, update and delete share: the row is looked up first,
      so a missing id is reported as such before ownership is considered, and
      a refusal is only ever about an existing row. For the three roles the
      row is reachable exactly when its principal owns it; any other role
      string is never refused. */
  function Guarda(u: Principal, linhas: map<int, Consulta>, id: int): (a: Acesso)
    ensures a == Inexistente <==> id !in linhas
    ensures u.tipo in TiposValidos ==> (a == Permitido <==> id in linhas && Dono(u, linhas[id]))
    ensures u.tipo !in TiposValidos ==> a != Negado
  {
    if id !in linhas then Inexistente
    else if u.tipo == Paciente && linhas[id].pacienteId != u.id then Negado
    else if u.tipo == Medico && linhas[id].medicoId != u.id then Negado
    else Permitido
  }

  /** The body of a create request. */
  datatype NovaConsulta = NovaConsulta(
    pacienteId: Option<int>, medicoId: Option<int>, dataConsulta: Option<string>, descricao: Option<string>)

  predicate Completa(b: NovaConsulta)
  {
    PreenchidoNum(b.pacienteId) && PreenchidoNum(b.medicoId) && Preenchido(b.dataConsulta)
  }

  /** The checks `criar` makes before writing: the three required fields must
      be truthy (so id 0 is refused) before anything else is looked at; then a
      patient may only book for itself and a doctor only for itself. */
  function ValidarCriacao(u: Principal, b: NovaConsulta): (e: Option<Falha>)
    ensures e.Some? ==> e.value.status == 400 || e.value.status == 403
    ensures (e.Some? && e.value.status == 400) <==> !Completa(b)
    ensures e.None? <==>
      && Completa(b)
      && (u.tipo == Paciente ==> b.pacienteId.value == u.id)
      && (u.tipo == Medico ==> b.medicoId.value == u.id)
    ensures e == Some(Falha(403, PacienteSoParaSi)) <==>
      Completa(b) && u.tipo == Paciente && b.pacienteId.value != u.id
    ensures e == Some(Falha(403, MedicoSoParaSi)) <==>
      Completa(b) && u.tipo == Medico && b.medicoId.value != u.id
  {
    if !Completa(b) then Some(Falha(400, CamposObrigatorios))
    else if u.tipo == Paciente && b.pacienteId.value != u.id then Some(Falha(403, PacienteSoParaSi))
    else if u.tipo == Medico && b.medicoId.value != u.id then Some(Falha(403, MedicoSoParaSi))
    else None
  }

  /** The row `Consulta.create` inserts: `status` takes its default,
      `agendada`, and nothing has been diagnosed or updated yet. */
  function Nova(b: NovaConsulta, agora: Instante): (c: Consulta)
    requires Completa(b)
    ensures c.status == Agendada && c.status in StatusValidos
    ensures c.pacienteId == b.pacienteId.value && c.medicoId == b.medicoId.value
    ensures c.dataConsulta == b.dataConsulta.value && c.descricao == b.descricao
    ensures c.diagnostico.None? && c.atualizadoEm.None? && c.criadoEm == agora
  {
    Consulta(b.pacienteId.value, b.medicoId.value, b.dataConsulta.value, b.descricao, None, Agendada, agora, None)
  }

  /** The body of an update request. */
  datatype Alteracao = Alteracao(
    dataConsulta: Option<string>, descricao: Option<string>, diagnostico: Option<string>, status: Option<string>)

  /** The status check of `atualizar`: a truthy status must be one of the
      three values; an absent or empty one is let through. No transition rule
      depends on the current status. */
  function ValidarStatus(s: Option<string>): (e: Option<Falha>)
    ensures e.None? <==> !Preenchido(s) || s.value in StatusValidos
    ensures e.Some? ==> e.value == Falha(400, StatusInvalido)
  {
    if Preenchido(s) && s.value !in StatusValidos then Some(Falha(400, StatusInvalido)) else None
  }

  /** `consulta.update(...)`: a field the body carries overwrites the stored
      one, a field it omits keeps its value (undefined values are dropped),
      `atualizado_em` becomes now, and the owners never change. */
  function Aplicar(c: Consulta, b: Alteracao, agora: Instante): (r: Consulta)
    ensures r.pacienteId == c.pacienteId && r.medicoId == c.medicoId && r.criadoEm == c.criadoEm
    ensures r.atualizadoEm == Some(agora)
    ensures b.dataConsulta.Some? ==> r.dataConsulta == b.dataConsulta.value
    ensures b.dataConsulta.None? ==> r.dataConsulta == c.dataConsulta
    ensures r.descricao == if b.descricao.Some? then b.descricao else c.descricao
    ensures r.diagnostico == if b.diagnostico.Some? then b.diagnostico else c.diagnostico
    ensures b.status.Some? ==> r.status == b.status.value
    ensures b.status.None? ==> r.status == c.status
  {
    c.(dataConsulta := if b.dataConsulta.Some? then b.dataConsulta.value else c.dataConsulta,
       descricao := if b.descricao.Some? then b.descricao else c.descricao,
       diagnostico := if b.diagnostico.Some? then b.diagnostico else c.diagnostico,
       status := if b.status.Some? then b.status.value else c.status,
       atualizadoEm := Some(agora))
  }

  /** Whatever the status check lets through and the owner chooses, any of the
      three values may follow any current one. */
  lemma {:induction false} SemMaquinaDeEstados(c: Consulta, novo: string, agora: Instante)
    requires c.status in StatusValidos && novo in StatusValidos
    ensures ValidarStatus(Some(novo)).None?
    ensures Aplicar(c, Alteracao(None, None, None, Some(novo)), agora).status == novo
  {
  }

  class TabelaConsultas {
    var linhas: map<int, Consulta>
    var proximoId: int

    /** Ids come from the auto-increment counter, and the ENUM column only
        ever holds one of the three statuses. */
    ghost predicate Valid()
      reads this
    {
      && 1 <= proximoId
      && (forall id :: id in linhas ==> 1 <= id < proximoId)
      && (forall id :: id in linhas ==> linhas[id].status in StatusValidos)
    }

    constructor ()
      ensures Valid() && linhas == map[] && proximoId == 1
    {
      linhas := map[];
      proximoId := 1;
    }

    /** `listar`: every row the filter of the caller's role selects. */
    method Listar(u: Principal, q: Parametros) returns (r: Resposta<map<int, Consulta>>)
      ensures r.Sucesso? && r.status == 200
      ensures forall id :: id in r.corpo ==> id in linhas && r.corpo[id] == linhas[id]
      ensures u.tipo == Paciente ==>
        forall id :: id in linhas ==> (id in r.corpo <==> linhas[id].pacienteId == u.id)
      ensures u.tipo == Medico ==>
        forall id :: id in linhas ==> (id in r.corpo <==> linhas[id].medicoId == u.id)
      ensures u.tipo == Admin ==>
        forall id :: id in linhas ==> (id in r.corpo <==>
          && (Preenchido(q.status) ==> linhas[id].status == q.status.value)
          && (q.medicoId.Some? ==> linhas[id].medicoId == q.medicoId.value)
          && (q.pacienteId.Some? ==> linhas[id].pacienteId == q.pacienteId.value))
      ensures u.tipo == Admin && !Preenchido(q.status) && q.medicoId.None? && q.pacienteId.None? ==>
        r.corpo == linhas
      ensures u.tipo !in TiposValidos ==> r.corpo == linhas
    {
      var f := MontarFiltro(u, q);
      r := Sucesso(200, map id | id in linhas && Satisfaz(f, linhas[id]) :: linhas[id]);
    }

    /** `buscarPorId`: 404 for a missing id, 403 for an existing row the
        caller does not own, the row otherwise. */
    method BuscarPorId(u: Principal, id: int) returns (r: Resposta<Consulta>)
      ensures id !in linhas ==> r == Erro(404, NaoEncontrada)
      ensures Guarda(u, linhas, id) == Negado ==> r == Erro(403, AcessoNegado)
      ensures Guarda(u, linhas, id) == Permitido ==> r == Sucesso(200, linhas[id])
    {
      match Guarda(u, linhas, id)
      case Inexistente =>
        r := Erro(404, NaoEncontrada);
      case Negado =>
        r := Erro(403, AcessoNegado);
      case Permitido =>
        r := Sucesso(200, linhas[id]);
    }

    /** `criar`: after the checks of ValidarCriacao, one new row under a fresh
        id, with status `agendada`; any refusal leaves the table as it was. */
    method Criar(u: Principal, b: NovaConsulta, agora: Instante, escritaOk: bool) returns (r: Resposta<Registro>)
      requires Valid()
      modifies this
      ensures Valid()
      ensures ValidarCriacao(u, b).Some? ==>
        && r == Erro(ValidarCriacao(u, b).value.status, ValidarCriacao(u, b).value.erro)
        && linhas == old(linhas) && proximoId == old(proximoId)
      ensures ValidarCriacao(u, b).None? && !escritaOk ==>
        r == Erro(500, ErroCriar) && linhas == old(linhas) && proximoId == old(proximoId)
      ensures ValidarCriacao(u, b).None? && escritaOk ==>
        && old(proximoId) !in old(linhas)
        && r == Sucesso(201, Registro(old(proximoId), Nova(b, agora)))
        && linhas == old(linhas)[old(proximoId) := Nova(b, agora)]
        && proximoId == old(proximoId) + 1
    {
      var falha := ValidarCriacao(u, b);
      if falha.Some? {
        r := Erro(falha.value.status, falha.value.erro);
        return;
      }
      if !escritaOk {
        r := Erro(500, ErroCriar);
        return;
      }
      var c := Nova(b, agora);
      var id := proximoId;
      linhas := linhas[id := c];
      proximoId := proximoId + 1;
      r := Sucesso(201, Registro(id, c));
    }

    /** `atualizar`: the status check comes before the lookup; then 404, 403,
        and on an owned row the update, which the store refuses (500, nothing
        changed) when the resulting status is outside the ENUM or the write
        fails for another reason. */
    method Atualizar(u: Principal, id: int, b: Alteracao, agora: Instante, escritaOk: bool)
      returns (r: Resposta<Consulta>)
      requires Valid()
      modifies this
      ensures Valid() && proximoId == old(proximoId)
      ensures ValidarStatus(b.status).Some? ==> r == Erro(400, StatusInvalido) && linhas == old(linhas)
      ensures ValidarStatus(b.status).None? && id !in old(linhas) ==>
        r == Erro(404, NaoEncontrada) && linhas == old(linhas)
      ensures ValidarStatus(b.status).None? && Guarda(u, old(linhas), id) == Negado ==>
        r == Erro(403, AcessoNegado) && linhas == old(linhas)
      ensures ValidarStatus(b.status).None? && Guarda(u, old(linhas), id) == Permitido ==>
        var novo := Aplicar(old(linhas)[id], b, agora);
        if escritaOk && novo.status in StatusValidos
        then r == Sucesso(200, novo) && linhas == old(linhas)[id := novo]
        else r == Erro(500, ErroAtualizar) && linhas == old(linhas)
    {
      var falha := ValidarStatus(b.status);
      if falha.Some? {
        r := Erro(400, StatusInvalido);
        return;
      }
      match Guarda(u, linhas, id)
      case Inexistente =>
        r := Erro(404, NaoEncontrada);
      case Negado =>
        r := Erro(403, AcessoNegado);
      case Permitido =>
        var novo := Aplicar(linhas[id], b, agora);
        if escritaOk && novo.status in StatusValidos {
          linhas := linhas[id := novo];
          r := Sucesso(200, novo);
        } else {
          r := Erro(500, ErroAtualizar);
        }
    }

    /** `remover`: 404, 403, or 500 when the delete fails, each with the table
        unchanged; otherwise exactly the addressed row is removed with 204 and
        every other row untouched. */
    method Remover(u: Principal, id: int, escritaOk: bool) returns (r: Resposta<()>)
      requires Valid()
      modifies this
      ensures Valid() && proximoId == old(proximoId)
      ensures id !in old(linhas) ==> r == Erro(404, NaoEncontrada) && linhas == old(linhas)
      ensures Guarda(u, old(linhas), id) == Negado ==> r == Erro(403, AcessoNegado) && linhas == old(linhas)
      ensures Guarda(u, old(linhas), id) == Permitido && !escritaOk ==>
        r == Erro(500, ErroRemover) && linhas == old(linhas)
      ensures Guarda(u, old(linhas), id) == Permitido && escritaOk ==>
        && r == Sucesso(204, ())
        && linhas.Keys == old(linhas).Keys - {id}
        && forall k :: k in linhas ==> linhas[k] == old(linhas)[k]
    {
      match Guarda(u, linhas, id)
      case Inexistente =>
        r := Erro(404, NaoEncontrada);
      case Negado =>
        r := Erro(403, AcessoNegado);
      case Permitido =>
        if escritaOk {
          linhas := linhas - {id};
          r := Sucesso(204, ());
        } else {
          r := Erro(500, ErroRemover);
        }
    }
  }
}
