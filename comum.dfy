/** Values shared by the three services: optional request fields and their
    JavaScript truthiness, the principal a verified token yields, the three
    role names and the shape of an HTTP reply. */
module Comum {

  datatype Option<+T> = None | Some(value: T)

  /** A string field of a JSON body or a header. `undefined` (absent) and the
      empty string are both falsy in JavaScript, so `!campo` holds for them. */
  predicate Preenchido(s: Option<string>)
  {
    s.Some? && s.value != ""
  }

  /** A numeric field of a JSON body: absent and `0` are falsy. */
  predicate PreenchidoNum(n: Option<int>)
  {
    n.Some? && n.value != 0
  }

  const Medico: string := "medico"
  const Paciente: string := "paciente"
  const Admin: string := "admin"

  /** The role enumeration declared on the credential and the profile tables. */
  const TiposValidos: seq<string> := [Medico, Paciente, Admin]

  /** The payload of a verified token, `{ id, tipo }`, attached to the request
      as `req.usuario`. The role stays a string: nothing re-validates it once
      the token has been verified. */
  datatype Principal = Principal(id: int, tipo: string)

  /** An HTTP reply: a status with a JSON body, or a status with `{ erro }`. */
  datatype Resposta<+T> = Sucesso(status: int, corpo: T) | Erro(status: int, erro: string)

  /** An early refusal produced by a validation step. */
  datatype Falha = Falha(status: int, erro: string)
}
