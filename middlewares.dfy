/** The three request gates of the profile service (verificarToken,
    verificarChaveInterna, verificarAdmin). Each is a total function of the
    request: it either calls `next()`, possibly with a principal attached, or
    answers with an error status. jsonwebtoken's `verify` is the parameter
    `verificar`: it yields the decoded payload, or `None` when the signature
    or the expiry is rejected. */
module Middlewares {
  import opened Comum

  /** The outcome of one Express middleware: `next()` with `req.usuario` as it
      now stands, or a response with an error status. */
  datatype Passo = Segue(usuario: Option<Principal>) | Recusa(status: int, erro: string)

  const TokenNaoFornecido: string := "Token não fornecido"
  const TokenInvalido: string := "Token inválido ou expirado"
  const AcessoInternoNegado: string := "Acesso interno não autorizado"
  const AcessoRestrito: string := "Acesso restrito a administradores"

  /** The scheme prefix `startsWith` tests: case-sensitive, one trailing space. */
  const Prefixo: string := "Bearer "

  /** `s.split(sep)` for a one-character separator: the pieces between
      consecutive separators, so `n` separators give `n + 1` pieces. */
  function Dividir(s: string, sep: char): (partes: seq<string>)
    ensures |partes| == multiset(s)[sep] + 1
    ensures forall i :: 0 <= i < |partes| ==> sep !in partes[i]
    decreases |s|
  {
    if s == [] then [""]
    else
      var resto := Dividir(s[1..], sep);
      assert s == [s[0]] + s[1..];
      if s[0] == sep then [""] + resto
      else [[s[0]] + resto[0]] + resto[1..]
  }

  /** `partes.join(sep)`. */
  function Juntar(partes: seq<string>, sep: char): string
    requires |partes| >= 1
  {
    if |partes| == 1 then partes[0] else partes[0] + [sep] + Juntar(partes[1..], sep)
  }

  /** Joining a list that starts with one more piece. */
  lemma JuntarComeco(x: string, partes: seq<string>, sep: char)
    requires |partes| >= 1
    ensures Juntar([x] + partes, sep) == x + [sep] + Juntar(partes, sep)
  {
    assert ([x] + partes)[1..] == partes;
  }

  /** Prepending a character to the first piece prepends it to the join. */
  lemma JuntarPrimeiraLetra(c: char, partes: seq<string>, sep: char)
    requires |partes| >= 1
    ensures Juntar([[c] + partes[0]] + partes[1..], sep) == [c] + Juntar(partes, sep)
  {
    if |partes| > 1 {
      JuntarComeco([c] + partes[0], partes[1..], sep);
      assert [partes[0]] + partes[1..] == partes;
      JuntarComeco(partes[0], partes[1..], sep);
    }
  }

  /** Splitting loses nothing: joining the pieces gives back the string. */
  lemma {:induction false} JuntarDividir(s: string, sep: char)
    ensures Juntar(Dividir(s, sep), sep) == s
    decreases |s|
  {
    if s != [] {
      var resto := Dividir(s[1..], sep);
      JuntarDividir(s[1..], sep);
      assert s == [s[0]] + s[1..];
      if s[0] == sep {
        JuntarComeco("", resto, sep);
      } else {
        JuntarPrimeiraLetra(s[0], resto, sep);
      }
    }
  }

  /** The first piece is the longest separator-free prefix of the string. */
  lemma {:induction false} PrimeiraParte(s: string, sep: char)
    ensures Dividir(s, sep)[0] <= s
    ensures |Dividir(s, sep)[0]| == |s| || s[|Dividir(s, sep)[0]|] == sep
    decreases |s|
  {
    if s != [] && s[0] != sep {
      PrimeiraParte(s[1..], sep);
    }
  }

  /** A separator-free word followed by the separator is exactly the first piece. */
  lemma {:induction false} DividirAposPalavra(w: string, t: string, sep: char)
    requires sep !in w
    ensures Dividir(w + [sep] + t, sep) == [w] + Dividir(t, sep)
    decreases |w|
  {
    var s := w + [sep] + t;
    if w == [] {
      assert s == [sep] + t && s[1..] == t;
    } else {
      assert s[0] == w[0] && s[1..] == w[1..] + [sep] + t;
      DividirAposPalavra(w[1..], t, sep);
      assert [w[0]] + w[1..] == w;
    }
  }

  /** `authHeader.split(' ')[1]` on a header that starts with `"Bearer "`: the
      text after the prefix up to the next space or the end, so
      `"Bearer  x"` yields `""` and `"Bearer a b"` yields `"a"`. */
  function TokenDoCabecalho(h: string): (t: string)
    requires Prefixo <= h
    ensures Prefixo + t <= h
    ensures ' ' !in t
    ensures |h| == |Prefixo| + |t| || h[|Prefixo| + |t|] == ' '
  {
    var resto := h[|Prefixo|..];
    assert h == "Bearer" + [' '] + resto;
    DividirAposPalavra("Bearer", resto, ' ');
    PrimeiraParte(resto, ' ');
    Dividir(h, ' ')[1]
  }

  /** The three facts about the token determine it: it is the only
      space-free text after the prefix that ends at a space or at the end. */
  lemma TokenUnico(h: string, t: string)
    requires Prefixo + t <= h && ' ' !in t
    requires |h| == |Prefixo| + |t| || h[|Prefixo| + |t|] == ' '
    ensures TokenDoCabecalho(h) == t
  {
    var u := TokenDoCabecalho(h);
    assert forall i :: 0 <= i < |t| && i < |u| ==> t[i] == h[|Prefixo| + i] == u[i];
  }

  /** A doubled space after the scheme gives the empty token, whatever follows:
      `"Bearer  x"` is checked as `""`. */
  lemma EspacoDuplo(resto: string)
    ensures TokenDoCabecalho(Prefixo + " " + resto) == ""
  {
    TokenUnico(Prefixo + " " + resto, "");
  }

  /** Only the field up to the next space is the token: `"Bearer a b"` is
      checked as `"a"`. */
  lemma SegundoCampo(token: string, resto: string)
    requires ' ' !in token
    ensures TokenDoCabecalho(Prefixo + token + " " + resto) == token
  {
    var h := Prefixo + token + " " + resto;
    assert h[|Prefixo| + |token|] == ' ';
    TokenUnico(h, token);
  }

  /** `verificarToken`: a missing header, or one not starting with `"Bearer "`,
      is refused with 401 "token not provided"; otherwise the second
      space-separated field is verified, and a rejected token is refused with
      401 under a different message, while an accepted one becomes the
      principal passed on to the next handler. */
  function VerificarToken(cabecalho: Option<string>, verificar: string -> Option<Principal>): (p: Passo)
    ensures p.Segue? <==>
      cabecalho.Some? && Prefixo <= cabecalho.value && verificar(TokenDoCabecalho(cabecalho.value)).Some?
    ensures p.Segue? ==> p.usuario == verificar(TokenDoCabecalho(cabecalho.value))
    ensures p.Recusa? ==> p.status == 401
    ensures p.Recusa? ==>
      (p.erro == TokenNaoFornecido <==> !(cabecalho.Some? && Prefixo <= cabecalho.value))
    ensures p.Recusa? ==> p.erro in {TokenNaoFornecido, TokenInvalido}
  {
    if cabecalho.None? || !(Prefixo <= cabecalho.value) then
      Recusa(401, TokenNaoFornecido)
    else
      match verificar(TokenDoCabecalho(cabecalho.value))
      case Some(dados) => Segue(Some(dados))
      case None => Recusa(401, TokenInvalido)
  }

  /** jsonwebtoken rejects an empty token, so a doubled space after the
      scheme always ends in 401 "invalid token", whatever follows it. */
  lemma EspacoDuploRecusado(resto: string, verificar: string -> Option<Principal>)
    requires verificar("") == None
    ensures VerificarToken(Some(Prefixo + " " + resto), verificar) == Recusa(401, TokenInvalido)
  {
    EspacoDuplo(resto);
  }

  /** `verificarChaveInterna`: only a present, non-empty `x-chave-interna`
      equal to the configured secret passes, and then the request goes on
      unchanged. With no secret configured (`segredo == None`), nothing
      passes. The gate looks at no other part of the request. */
  function VerificarChaveInterna(cabecalho: Option<string>, segredo: Option<string>, usuario: Option<Principal>): (p: Passo)
    ensures p.Segue? <==> Preenchido(cabecalho) && cabecalho == segredo
    ensures p.Segue? ==> p.usuario == usuario
    ensures p.Recusa? ==> p == Recusa(403, AcessoInternoNegado)
    ensures !Preenchido(segredo) ==> p.Recusa?
  {
    if !Preenchido(cabecalho) || cabecalho != segredo then
      Recusa(403, AcessoInternoNegado)
    else
      Segue(usuario)
  }

  /** `verificarAdmin`: passes exactly the requests whose principal has role
      `admin`; any other role, and a request with no principal at all, get
      403. The principal's id plays no part. */
  function VerificarAdmin(usuario: Option<Principal>): (p: Passo)
    ensures p.Segue? <==> usuario.Some? && usuario.value.tipo == Admin
    ensures p.Segue? ==> p.usuario == usuario
    ensures p.Recusa? ==> p == Recusa(403, AcessoRestrito)
  {
    if usuario.None? || usuario.value.tipo != Admin then
      Recusa(403, AcessoRestrito)
    else
      Segue(usuario)
  }
}
