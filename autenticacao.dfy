/** The authentication service: registration as a saga over the local
    credential table and the remote profile service, and login. bcrypt's
    `hash` is the parameter `cifrar` and its `compare` the parameter
    `confere`; the remote `POST /usuarios/interno` is reduced to the request
    it carries and the parameter `perfilCriado` that says whether it
    succeeded; whether the compensating `destroy` succeeds is the parameter
    `destruicaoOk`. */
module Autenticacao {
  import opened Comum

  const CamposCadastro: string := "Campos obrigatórios: nome, email, senha, tipo"
  const TipoInvalido: string := "Tipo inválido. Use: `medico`, `paciente` ou `admin`"
  const EmailJaCadastrado: string := "Email já cadastrado"
  const ErroPerfil: string := "Erro ao criar perfil do usuário"
  const ErroRegistro: string := "Erro interno ao registrar usuário"
  const CamposLogin: string := "Campos obrigatórios: email, senha"
  const CredenciaisInvalidas: string := "Credenciais inválidas"

  /** The lifetime given to `jwt.sign`, `'8h'`. */
  const ValidadeHoras: int := 8

  /** One row of the credential table, without its id. */
  datatype Credencial = Credencial(email: string, senhaHash: string, tipo: string)

  /** The body of `POST /autenticacao/registrar`. */
  datatype Cadastro = Cadastro(nome: Option<string>, email: Option<string>, senha: Option<string>, tipo: Option<string>)

  /** The body of `POST /autenticacao/entrar`. */
  datatype Login = Login(email: Option<string>, senha: Option<string>)

  /** The 201 body of a registration: it has no field for the password hash. */
  datatype Identidade = Identidade(id: int, nome: string, email: string, tipo: string)

  /** The request sent to the profile service: the new credential's id with
      the registration's name, email and role in the body, and the machine key
      in the `x-chave-interna` header. */
  datatype ChamadaPerfil = ChamadaPerfil(id: int, nome: string, email: string, tipo: string, chaveInterna: Option<string>)

  /** The payload `{ id, tipo }` of a signed token and its lifetime in hours. */
  datatype Token = Token(id: int, tipo: string, validadeHoras: int)

  /** The `unique` constraint on `email`. */
  ghost predicate EmailsUnicos(m: map<int, Credencial>)
  {
    forall a, b :: a in m && b in m && m[a].email == m[b].email ==> a == b
  }

  predicate EmailCadastrado(m: map<int, Credencial>, email: string)
  {
    exists id :: id in m && m[id].email == email
  }

  /** The checks `registrar` makes before touching the store: all four fields
      truthy, then the role one of the three. */
  function ValidarCadastro(b: Cadastro): (e: Option<Falha>)
    ensures e.None? <==>
      && Preenchido(b.nome) && Preenchido(b.email) && Preenchido(b.senha) && Preenchido(b.tipo)
      && b.tipo.value in TiposValidos
    ensures e.Some? ==> e.value.status == 400
    ensures e.Some? ==>
      (e.value.erro == CamposCadastro <==>
        !(Preenchido(b.nome) && Preenchido(b.email) && Preenchido(b.senha) && Preenchido(b.tipo)))
    ensures e == Some(Falha(400, TipoInvalido)) <==>
      && Preenchido(b.nome) && Preenchido(b.email) && Preenchido(b.senha) && Preenchido(b.tipo)
      && b.tipo.value !in TiposValidos
  {
    if !(Preenchido(b.nome) && Preenchido(b.email) && Preenchido(b.senha) && Preenchido(b.tipo)) then
      Some(Falha(400, CamposCadastro))
    else if b.tipo.value !in TiposValidos then
      Some(Falha(400, TipoInvalido))
    else
      None
  }

  /** `Usuario.findOne({ where: { email } })`: the one row with this email,
      if any. */
  function BuscarPorEmail(m: map<int, Credencial>, email: string): (r: Option<int>)
    requires EmailsUnicos(m)
    ensures r.None? <==> !EmailCadastrado(m, email)
    ensures r.Some? ==> r.value in m && m[r.value].email == email
  {
    if EmailCadastrado(m, email) then
      var id :| id in m && m[id].email == email;
      Some(id)
    else
      None
  }

  /** `entrar`: 400 unless both fields are truthy; an unknown email and a
      wrong password give the same 401 reply; otherwise a token for exactly
      the stored id and role, valid for 8 hours. */
  function Entrar(m: map<int, Credencial>, b: Login, confere: (string, string) -> bool): (r: Resposta<Token>)
    requires EmailsUnicos(m)
    ensures !(Preenchido(b.email) && Preenchido(b.senha)) ==> r == Erro(400, CamposLogin)
    ensures r.Sucesso? <==>
      && Preenchido(b.email) && Preenchido(b.senha)
      && exists id :: id in m && m[id].email == b.email.value && confere(b.senha.value, m[id].senhaHash)
    ensures r.Sucesso? ==>
      && r.status == 200
      && r.corpo.id in m && m[r.corpo.id].email == b.email.value
      && r.corpo == Token(r.corpo.id, m[r.corpo.id].tipo, ValidadeHoras)
    ensures r.Erro? ==> r == Erro(400, CamposLogin) || r == Erro(401, CredenciaisInvalidas)
    ensures Preenchido(b.email) && Preenchido(b.senha) && !EmailCadastrado(m, b.email.value) ==>
      r == Erro(401, CredenciaisInvalidas)
    ensures
      && Preenchido(b.email) && Preenchido(b.senha)
      && (forall id :: id in m && m[id].email == b.email.value ==> !confere(b.senha.value, m[id].senhaHash))
      ==> r == Erro(401, CredenciaisInvalidas)
  {
    if !(Preenchido(b.email) && Preenchido(b.senha)) then
      Erro(400, CamposLogin)
    else
      match BuscarPorEmail(m, b.email.value)
      case None => Erro(401, CredenciaisInvalidas)
      case Some(id) =>
        if !confere(b.senha.value, m[id].senhaHash) then Erro(401, CredenciaisInvalidas)
        else Sucesso(200, Token(id, m[id].tipo, ValidadeHoras))
  }

  /** What every profile request the saga sends satisfies: a positive id and
      truthy name, email and a valid role. */
  predicate ChamadaBemFormada(c: ChamadaPerfil)
  {
    c.id >= 1 && c.nome != "" && c.email != "" && c.tipo in TiposValidos
  }

  class Credenciais {
    var linhas: map<int, Credencial>
    var proximoId: int

    /** Ids come from the auto-increment counter, emails are unique and
        every role is in the ENUM. */
    ghost predicate Valid()
      reads this
    {
      && 1 <= proximoId
      && (forall id :: id in linhas ==> 1 <= id < proximoId)
      && (forall id :: id in linhas ==> linhas[id].tipo in TiposValidos)
      && EmailsUnicos(linhas)
    }

    constructor ()
      ensures Valid() && linhas == map[] && proximoId == 1
    {
      linhas := map[];
      proximoId := 1;
    }

    /** `Usuario.create`: the row is stored under the next auto-increment id. */
    method Inserir(c: Credencial) returns (id: int)
      requires Valid() && !EmailCadastrado(linhas, c.email) && c.tipo in TiposValidos
      modifies this
      ensures Valid()
      ensures id == old(proximoId) && id !in old(linhas)
      ensures linhas == old(linhas)[id := c] && proximoId == old(proximoId) + 1
    {
      id := proximoId;
      linhas := linhas[id := c];
      proximoId := proximoId + 1;
    }

    /** `usuario.destroy()`. */
    method Destruir(id: int)
      requires Valid()
      modifies this
      ensures Valid()
      ensures linhas == old(linhas) - {id} && proximoId == old(proximoId)
    {
      linhas := linhas - {id};
    }

    /** `registrar`. Validation and the uniqueness check leave the store
        untouched and send nothing. Otherwise the credential is created with
        the hashed password and the profile request is sent; if the profile
        service fails, the credential is destroyed and the store is as before,
        unless the destroy fails too, in which case the credential stays
        behind. Only when the profile is created does the store keep exactly
        one new credential and the reply carry `{ id, nome, email, tipo }`. */
    method Registrar(b: Cadastro, cifrar: string -> string, chave: Option<string>, perfilCriado: bool, destruicaoOk: bool)
      returns (r: Resposta<Identidade>, chamada: Option<ChamadaPerfil>)
      requires Valid()
      modifies this
      ensures Valid()
      ensures ValidarCadastro(b).Some? ==>
        && r == Erro(400, ValidarCadastro(b).value.erro) && chamada.None?
        && linhas == old(linhas) && proximoId == old(proximoId)
      ensures ValidarCadastro(b).None? && EmailCadastrado(old(linhas), b.email.value) ==>
        && r == Erro(409, EmailJaCadastrado) && chamada.None?
        && linhas == old(linhas) && proximoId == old(proximoId)
      ensures ValidarCadastro(b).None? && !EmailCadastrado(old(linhas), b.email.value) ==>
        var id := old(proximoId);
        var criada := Credencial(b.email.value, cifrar(b.senha.value), b.tipo.value);
        && id !in old(linhas)
        && chamada == Some(ChamadaPerfil(id, b.nome.value, b.email.value, b.tipo.value, chave))
        && ChamadaBemFormada(chamada.value)
        && proximoId == id + 1
        && (perfilCriado ==>
              r == Sucesso(201, Identidade(id, b.nome.value, b.email.value, b.tipo.value))
              && linhas == old(linhas)[id := criada])
        && (!perfilCriado && destruicaoOk ==> r == Erro(500, ErroPerfil) && linhas == old(linhas))
        && (!perfilCriado && !destruicaoOk ==>
              r == Erro(500, ErroRegistro) && linhas == old(linhas)[id := criada])
    {
      chamada := None;
      var falha := ValidarCadastro(b);
      if falha.Some? {
        r := Erro(400, falha.value.erro);
        return;
      }
      var nome, email, senha, tipo := b.nome.value, b.email.value, b.senha.value, b.tipo.value;
      if BuscarPorEmail(linhas, email).Some? {
        r := Erro(409, EmailJaCadastrado);
        return;
      }
      var id := Inserir(Credencial(email, cifrar(senha), tipo));
      chamada := Some(ChamadaPerfil(id, nome, email, tipo, chave));
      if !perfilCriado {
        if destruicaoOk {
          Destruir(id);
          assert linhas == old(linhas);
          r := Erro(500, ErroPerfil);
        } else {
          r := Erro(500, ErroRegistro);
        }
        return;
      }
      r := Sucesso(201, Identidade(id, nome, email, linhas[id].tipo));
    }
  }

  /** Two registrations with the same valid body: the first succeeds and the
      second is refused with 409, the store keeping the first credential. */
  method RegistroRepetido(b: Cadastro, cifrar: string -> string, chave: Option<string>)
    returns (primeiro: Resposta<Identidade>, segundo: Resposta<Identidade>)
    requires ValidarCadastro(b).None?
    ensures primeiro.Sucesso? && primeiro.status == 201
    ensures segundo == Erro(409, EmailJaCadastrado)
  {
    var store := new Credenciais();
    var chamada;
    primeiro, chamada := store.Registrar(b, cifrar, chave, true, true);
    assert store.linhas[1].email == b.email.value;
    segundo, chamada := store.Registrar(b, cifrar, chave, true, true);
  }

  /** A registration whose profile call fails and whose compensation runs
      leaves no trace: the email can be registered again from scratch, and
      login with it is refused. */
  method CompensacaoSemRastro(b: Cadastro, cifrar: string -> string, chave: Option<string>, confere: (string, string) -> bool)
    returns (falho: Resposta<Identidade>, login: Resposta<Token>)
    requires ValidarCadastro(b).None?
    ensures falho == Erro(500, ErroPerfil)
    ensures login == Erro(401, CredenciaisInvalidas)
  {
    var store := new Credenciais();
    var chamada;
    falho, chamada := store.Registrar(b, cifrar, chave, false, true);
    assert store.linhas == map[];
    login := Entrar(store.linhas, Login(b.email, b.senha), confere);
  }
}
