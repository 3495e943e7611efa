# Clinic microservices: access decisions, registration saga and tables, in Dafny

This project models the per-request decision logic of three Express services
of a clinical platform:

- **servico-autenticacao** registers credentials and logs users in.
  Registration is a saga. It validates the body, checks that the email is
  unique and creates the credential with a hashed password. It then asks the
  profile service to create the matching profile. If that call fails, it
  destroys the credential again. Login looks the email up, compares the
  password and issues a token with payload `{id, tipo}` that is valid for 8
  hours.
- **servico-usuarios** keeps the profile table. Rows are keyed by the id the
  caller supplies. Three gates protect it. `verificarToken` parses the
  bearer header and verifies the token. `verificarChaveInterna` checks the
  machine key that the auth service sends. `verificarAdmin` checks the role.
- **servico-consultas** keeps the appointment table. Who may list, read,
  create, change or delete an appointment depends on the caller's role
  (`paciente`, `medico` or `admin`) and on whether the caller owns the row.

Modules, one per source file or component:

- `Comum`: optional body fields with JavaScript truthiness, the principal, the
  role names and the reply shape.
- `Middlewares`: the three gates, with `String.prototype.split` as a function.
- `RotasUsuarios`: the order in which the profile service's routes run the gates.
- `Consultas`: the listing filter, the ownership guard, the create and update
  checks, and the `TabelaConsultas` class.
- `Autenticacao`: the registration checks, login, and the `Credenciais` class
  whose `Registrar` method runs the saga.
- `Usuarios`: the `Perfis` class over the profile table.
- `Integracao`: what the saga's remote call looks like to the profile service.

Tables that the handlers change are classes holding a `map` from id to row.
Their `Valid()` predicate states the table's invariant: ids below the
auto-increment counter, unique emails, ENUM columns holding ENUM values. Each
handler is a method whose postcondition gives the reply and the whole new
table. Outside effects are parameters: jsonwebtoken's `verify`, bcrypt's
`hash` and `compare`, whether the remote profile call succeeds, whether the
compensating `destroy` succeeds, and whether an appointment or profile
write succeeds.

The database is MySQL (see `servico-autenticacao/config/banco.js`). A write
it refuses is answered 500. The model makes those refusals explicit: an ENUM
value outside its list, a duplicate email in the profile table, and a
duplicate primary key when a profile is created. One consequence is in
`Consultas.TabelaConsultas.Atualizar`. An empty `status` is falsy, so it
passes the status check and the handler writes it. The ENUM column then
refuses it, so the reply is 500, not 400.

## Model

| member | source | states |
|---|---|---|
| `Middlewares.Dividir` | servico-usuarios/src/middlewares/verificarToken.js:10 | `split(sep)` yields one more piece than there are separators, and no piece contains the separator |
| `Middlewares.JuntarDividir` | servico-usuarios/src/middlewares/verificarToken.js:10 | splitting loses nothing: joining the pieces with the separator gives the header back |
| `Middlewares.PrimeiraParte` | servico-usuarios/src/middlewares/verificarToken.js:10 | the first piece of a split is the longest separator-free prefix |
| `Middlewares.TokenDoCabecalho` | servico-usuarios/src/middlewares/verificarToken.js:10 | the checked token is the space-free text right after `"Bearer "` that ends at the next space or at the end of the header |
| `Middlewares.TokenUnico` | servico-usuarios/src/middlewares/verificarToken.js:10 | those three facts determine the token uniquely |
| `Middlewares.EspacoDuplo` | servico-usuarios/src/middlewares/verificarToken.js:10 | `"Bearer  x"` (a doubled space) is checked as the empty token, whatever follows |
| `Middlewares.EspacoDuploRecusado` | servico-usuarios/src/middlewares/verificarToken.js:10-17 | jsonwebtoken rejects an empty token, so `"Bearer  x"` always ends in 401 with the invalid-token message |
| `Middlewares.SegundoCampo` | servico-usuarios/src/middlewares/verificarToken.js:10 | in `"Bearer a b"` only `"a"` is checked |
| `Middlewares.VerificarToken` | servico-usuarios/src/middlewares/verificarToken.js:3-19 | a request passes with the decoded payload as principal iff the header is present, starts with `"Bearer "` (case-sensitive) and its token verifies; every other request gets 401, and the message tells a missing or malformed header apart from a rejected token |
| `Middlewares.VerificarChaveInterna` | servico-usuarios/src/middlewares/verificarChaveInterna.js:1-7 | passes iff `x-chave-interna` is present, non-empty and equal to the configured secret; then nothing else about the request changes; with no secret configured nothing passes; any refusal is 403 |
| `Middlewares.VerificarAdmin` | servico-usuarios/src/middlewares/verificarAdmin.js:1-6 | passes iff a principal is attached and its role is `admin`; the id plays no part; any other role, or no principal at all, gets 403 |
| `RotasUsuarios.PortaoAdmin` | servico-usuarios/src/rotas/usuariosRotas.js:26 | token then admin gate: the handler runs iff the bearer token verifies to an admin; a token failure is 401, a verified non-admin is 403 |
| `RotasUsuarios.PortaoAdminSemToken` | servico-usuarios/src/rotas/usuariosRotas.js:48 | the `/:id` routes as written (also lines 82 and 104) refuse every request with 403 |
| `RotasUsuarios.AdminRecusadoSemToken` | servico-usuarios/src/rotas/usuariosRotas.js:48 | every admin request that `GET /usuarios` admits is refused by the `/:id` routes as written |
| `RotasUsuarios.ExemploAdminRecusado` | servico-usuarios/src/rotas/usuariosRotas.js:48 | a concrete admin request (`Bearer t`, payload `{id: 1, tipo: admin}`) that passes line 26 and is refused at line 48 |
| `RotasUsuarios.RotaListar` | servico-usuarios/src/rotas/usuariosRotas.js:26 | `GET /usuarios` answers with the gate's refusal, or with every profile |
| `RotasUsuarios.RotaBuscarPorId` | servico-usuarios/src/rotas/usuariosRotas.js:48 | `GET /usuarios/:id` behind the token and admin gates: the refusal, the row, or 404 |
| `RotasUsuarios.RotaAtualizar` | servico-usuarios/src/rotas/usuariosRotas.js:82 | `PUT /usuarios/:id` behind the token and admin gates: a refused request changes no row; otherwise the outcome of `atualizar` (500, 404, 200 with the merged row, or 500 when the store refuses) with its new table |
| `RotasUsuarios.RotaRemover` | servico-usuarios/src/rotas/usuariosRotas.js:104 | `DELETE /usuarios/:id` behind the token and admin gates: a refused request changes no row; otherwise the outcome of `remover` (500, 404, or 204 with exactly that row removed) |
| `RotasUsuarios.RotaInterna` | servico-usuarios/src/rotas/usuariosRotas.js:8 | `POST /usuarios/interno`: a request without the right machine key gets 403 and stores nothing; otherwise the outcome of `criar` (400, 201 with the stored row, or 500 with nothing stored) |
| `Consultas.MontarFiltro` | servico-consultas/src/controladores/consultasControlador.js:3-16 | a patient's filter selects exactly the rows with its `paciente_id`, and a doctor's exactly those with its `medico_id`, whatever the query says; an admin's selects exactly the rows that match each truthy query parameter (`status`, `medico_id`, `paciente_id`); any other role selects every row |
| `Consultas.Guarda` | servico-consultas/src/controladores/consultasControlador.js:29-35 | a missing id is reported before ownership is looked at, so a refusal only happens for an existing row; for the three roles access is granted iff the row exists and the caller owns it (patient by `paciente_id`, doctor by `medico_id`, admin always); another role string is never refused |
| `Consultas.ValidarCriacao` | servico-consultas/src/controladores/consultasControlador.js:47-53 | 400 iff `paciente_id`, `medico_id` or `data_consulta` is falsy (id 0 included), and that check comes first; otherwise 403 iff a patient books for another patient (with the patient message) or a doctor for another doctor (with the doctor message) |
| `Consultas.Nova` | servico-consultas/src/modelos/Consulta.js:30-33 | the created row has status `agendada`, the given owners, date and description, and no diagnosis or update time |
| `Consultas.ValidarStatus` | servico-consultas/src/controladores/consultasControlador.js:68-70 | the update is refused with 400 iff the status is truthy and not one of `agendada`, `realizada`, `cancelada` |
| `Consultas.Aplicar` | servico-consultas/src/controladores/consultasControlador.js:81 | an update overwrites exactly the fields the body carries, keeps the others, stamps `atualizado_em`, and never changes the owners |
| `Consultas.SemMaquinaDeEstados` | servico-consultas/src/controladores/consultasControlador.js:68-81 | any of the three statuses may replace any current one |
| `Consultas.TabelaConsultas.Listar` | servico-consultas/src/controladores/consultasControlador.js:3-24 | the listing holds exactly the rows the caller's role may see, unchanged: for a patient its own, for a doctor its own, for an admin those matching the query, and every row for an admin with no query or for another role |
| `Consultas.TabelaConsultas.BuscarPorId` | servico-consultas/src/controladores/consultasControlador.js:26-41 | 404 for a missing id, 403 for a row the caller does not own, and the row with 200 otherwise |
| `Consultas.TabelaConsultas.Criar` | servico-consultas/src/controladores/consultasControlador.js:43-61 | on 400, 403 or a failed write the table is unchanged; otherwise exactly one row is added, under a fresh id, with status `agendada`, and 201 is returned with it |
| `Consultas.TabelaConsultas.Atualizar` | servico-consultas/src/controladores/consultasControlador.js:63-86 | a bad status gives 400 before any lookup; then 404 or 403 with the table unchanged; on an owned row only that row changes, as Aplicar says, unless the store refuses it (500, unchanged) |
| `Consultas.TabelaConsultas.Remover` | servico-consultas/src/controladores/consultasControlador.js:88-106 | 404, 403, or 500 when the delete fails, each with the table unchanged; otherwise exactly the addressed row is removed, every other row is left untouched, and 204 is returned |
| `Autenticacao.ValidarCadastro` | servico-autenticacao/src/controladores/autenticacaoControlador.js:9-16 | 400 iff a field among `nome`, `email`, `senha` and `tipo` is falsy or the role is outside the three; the missing-field message is used exactly when a field is falsy, and the invalid-role message exactly when all four are truthy and the role is outside the three |
| `Autenticacao.BuscarPorEmail` | servico-autenticacao/src/controladores/autenticacaoControlador.js:19 | with unique emails, finds the row holding the email, and finds none iff no row holds it |
| `Autenticacao.Entrar` | servico-autenticacao/src/controladores/autenticacaoControlador.js:48-76 | 400 unless both fields are truthy; success iff some credential has this email and the password matches its hash; the token then carries exactly that credential's id and role and lasts 8 hours; once both fields are truthy, an unknown email and a wrong password each give the same 401 reply, never a 400 |
| `Autenticacao.Credenciais.Inserir` | servico-autenticacao/src/controladores/autenticacaoControlador.js:24 | the credential is stored under the next auto-increment id, which was not in use, and the table stays valid |
| `Autenticacao.Credenciais.Destruir` | servico-autenticacao/src/controladores/autenticacaoControlador.js:33 | exactly that credential is removed |
| `Autenticacao.Credenciais.Registrar` | servico-autenticacao/src/controladores/autenticacaoControlador.js:6-46 | validation errors (400) and a taken email (409) leave the store untouched and send nothing. Otherwise the profile request carries the new id with the body's name, email and role and the machine key. If it succeeds, the store gains exactly the new credential with the hashed password, and the reply is 201 with `{id, nome, email, tipo}`. If it fails, the store ends as before, or, when the destroy also fails, keeps the orphan credential; both replies are 500. Emails stay unique |
| `Autenticacao.RegistroRepetido` | servico-autenticacao/src/controladores/autenticacaoControlador.js:19-22 | registering the same valid body twice gives 201 and then 409 |
| `Autenticacao.CompensacaoSemRastro` | servico-autenticacao/src/controladores/autenticacaoControlador.js:32-35 | after a compensated failure (500), a login with the same email is refused as unknown |
| `Usuarios.ValidarPerfil` | servico-usuarios/src/controladores/usuariosControlador.js:4-7 | 400 iff `id`, `nome`, `email` or `tipo` is falsy (id 0 included); the role is not checked |
| `Usuarios.Mesclar` | servico-usuarios/src/controladores/usuariosControlador.js:44-47 | an update overwrites `nome`, `email` and `tipo` where the body carries them and keeps them where it omits them; the row is unchanged iff every carried field already holds its value |
| `Usuarios.GravarPreserva` | servico-usuarios/src/modelos/Usuario.js:14-22 | writing a row the constraints accept keeps every email unique and every role in the ENUM |
| `Usuarios.Perfis.Criar` | servico-usuarios/src/controladores/usuariosControlador.js:3-14 | 400 with the table unchanged when a field is missing; otherwise the row is stored under the caller's id and returned with 201, unless the store refuses it (id in use, email taken, role outside the ENUM), or the statement fails; both give 500 with the table unchanged |
| `Usuarios.Perfis.Listar` | servico-usuarios/src/controladores/usuariosControlador.js:16-23 | every row of the table, with 200 |
| `Usuarios.Perfis.BuscarPorId` | servico-usuarios/src/controladores/usuariosControlador.js:25-37 | 404 iff no row has the id; otherwise that row with 200 |
| `Usuarios.Perfis.Atualizar` | servico-usuarios/src/controladores/usuariosControlador.js:39-59 | a failed statement gives 500; 404 with nothing changed when no row has the id or the body changes nothing in it (zero affected rows); otherwise only that row changes, as Mesclar says, and it is returned with 200; a store refusal gives 500 with nothing changed |
| `Usuarios.Perfis.Remover` | servico-usuarios/src/controladores/usuariosControlador.js:61-75 | a failed statement gives 500 with nothing changed; 404 when no row has the id; otherwise exactly that row is removed, every other row is left untouched, and 204 is returned |
| `Integracao.CorpoEnviado` | servico-autenticacao/src/controladores/autenticacaoControlador.js:27-31 | the body the saga posts carries the credential's id, name, email and role |
| `Integracao.ChamadaDoCadastro` | servico-autenticacao/src/controladores/autenticacaoControlador.js:27-31 | every profile request the saga sends passes the profile service's required-field check; it passes the machine-key gate iff both services hold the same non-empty key; and the profile is keyed by the credential's id |

## Findings

| source | as written | input that shows it | evidently intended | confidence | as-written member | corrected member |
|---|---|---|---|---|---|---|
| servico-usuarios/src/rotas/usuariosRotas.js:48 | `GET`, `PUT` and `DELETE /usuarios/:id` (lines 48, 82, 104) run `verificarAdmin` without `verificarToken` in front. No principal is ever attached, so every request is refused with 403 | `GET /usuarios/1` with `Authorization: Bearer t`, where `t` verifies to `{id: 1, tipo: 'admin'}`: `GET /usuarios` admits this request, but the `/:id` routes answer 403 | the same gate order as line 26, token check then admin check. The tests at servico-usuarios/testes/usuarios.test.js:60-70 expect 200 for such a request | high; not executed | `RotasUsuarios.ExemploAdminRecusado` | `RotasUsuarios.PortaoAdmin` |

The route methods `RotaBuscarPorId`, `RotaAtualizar` and `RotaRemover` use the
corrected gate.

## Left out

- Process bootstrap, Swagger, Express wiring and the database connection are
  not modelled. Route order appears only in `RotasUsuarios`.
- jsonwebtoken is a parameter. `verify` yields the payload or nothing.
  Signatures, expiry and the clock are not modelled, and no sign/verify round
  trip is claimed. The token issued at login is the value
  `Token(id, tipo, 8)`.
- bcrypt is a parameter. `hash` is a function of the password, so the salt is
  not modelled. `compare` is a predicate on the password and the hash.
- The HTTP call to the profile service is not modelled. Only its request and
  its success or failure are. Its missing timeout is not modelled.
- Exceptions thrown by reads (`findAll`, `findByPk`, `findOne`,
  `bcrypt.compare`) and by `jwt.sign` (for instance with `JWT_SEGREDO`
  unset), and the 500 replies they lead to, are not modelled. So is
  any failure of `Usuario.create` in the credential store. Every other write
  that can fail is modelled: the compensating `destroy`, the appointment
  writes and the profile `create`, `update` and `destroy`. The `escritaOk`
  and `destruicaoOk` parameters say whether each one succeeds.
- The check-then-insert race between `findOne` and `create` is not
  modelled. Registrations run one at a time.
- Timestamps are opaque integers supplied by the caller.
- JSON bodies are modelled as typed fields that are either absent or present.
  Explicit `null`, values of the wrong JSON type, and the type mismatch that
  `!==` would find between a string id and a number id are not modelled.
- Query-string ids are taken as the integers the database compares them
  with. Column lengths (`STRING(150)`) are not enforced. Neither is the
  32-bit range of the `INTEGER` columns. MySQL refuses a caller-supplied
  profile id, or a `paciente_id` or `medico_id`, above 2147483647 with a
  500. The model stores it.
- `Consultas.TabelaConsultas.Criar`: the auto-increment counter is not
  advanced when an insert fails. MySQL may consume the value anyway, but that
  only changes which fresh id the next row gets.
- `Consultas.TabelaConsultas.Atualizar`: the date is not parsed. A
  `data_consulta` that the database refuses is covered only by the
  `escritaOk` parameter.
- `Usuarios.Perfis.Atualizar`: the affected-row count is the number of rows
  whose values change. That is what MySQL reports under Sequelize's default
  connection flags, and the `usuarios` table has no timestamp column. So
  the model answers 404 when the body changes nothing in the row. That
  includes an empty body, for which `Model.update` reports 0 rows.
- `Autenticacao.BuscarPorEmail`, `Autenticacao.EmailsUnicos` and
  `Usuarios.Aceita` compare emails by exact string equality. The column
  collation is not modelled. Under MySQL's default case-insensitive
  collation, `DR@x.com` and `dr@x.com` collide in the `unique` constraints
  and match in the login lookup, but the model treats them as different.
  The same collation applies to ENUM values and to the listing filter, and
  neither is modelled. `Usuarios.Perfis.Criar` and
  `Usuarios.Perfis.Atualizar` refuse `tipo: 'ADMIN'` with 500, where MySQL
  stores it as `admin`. `Consultas.MontarFiltro` and
  `Consultas.TabelaConsultas.Listar` match `?status=Agendada` against no
  row, where MySQL matches the `agendada` rows.
- Test files are not modelled. Several of them mock static methods that the
  controllers do not call.
