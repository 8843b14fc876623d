/**
  Issuing the login token. The signed JWT is abstracted to the claims it carries and its
  expiry instant (integer seconds); serialisation and the HMAC-SHA256 signature are not
  modelled. An empty signing key yields the empty token instead of a token.
*/
module Token {
  import opened Wrappers
  import opened Dominio

  datatype Claim = Claim(tipo: string, valor: string)

  /** `TokenVazio` is `string.Empty`; `Jwt` is a signed token with its claims and expiry. */
  datatype Token = TokenVazio | Jwt(claims: seq<Claim>, expiracao: int)

  const TipoEmail := "Email"
  const TipoPerfil := "Perfil"
  /** `ClaimTypes.Role`, the claim type role checks read. */
  const TipoRole := "http://schemas.microsoft.com/ws/2008/06/identity/claims/role"

  /** `DateTime.AddDays(1)`, in seconds. */
  const SegundosPorDia := 86400

  /**
    The key as the program configures it: `GetSection("Jwt").ToString()` prints the
    section object's type name, not the value stored under "Jwt".
  */
  const ChaveConfigurada := "Microsoft.Extensions.Configuration.ConfigurationSection"

  /** The value of the first claim of the given type (`FindFirst`), if any. */
  function ValorDoClaim(claims: seq<Claim>, tipo: string): (v: Option<string>)
    ensures v.Some? ==> exists c :: c in claims && c.tipo == tipo && c.valor == v.value
    ensures v.None? ==> forall c :: c in claims ==> c.tipo != tipo
  {
    if claims == [] then None
    else if claims[0].tipo == tipo then Some(claims[0].valor)
    else ValorDoClaim(claims[1..], tipo)
  }

  /** The role an issued token proves; the empty token proves none. */
  function PapelDoToken(t: Token): Option<string>
  {
    if t.Jwt? then ValorDoClaim(t.claims, TipoRole) else None
  }

  /**
    `GerarTokenJwt`: fails closed on an empty key; otherwise the token carries the email,
    the profile, and a role claim equal to the profile, and expires one day after `agora`.
  */
  function GerarTokenJwt(adm: Administrador, chave: string, agora: int): (t: Token)
    ensures t.TokenVazio? <==> chave == ""
    ensures t.Jwt? ==> t.expiracao == agora + SegundosPorDia
    ensures t.Jwt? ==> |t.claims| == 3
    ensures t.Jwt? ==> ValorDoClaim(t.claims, TipoEmail) == Some(adm.email)
    ensures t.Jwt? ==> ValorDoClaim(t.claims, TipoPerfil) == Some(adm.perfil)
    ensures t.Jwt? ==> PapelDoToken(t) == ValorDoClaim(t.claims, TipoPerfil)
    ensures t.Jwt? ==> forall c :: c in t.claims ==> c.valor == adm.email || c.valor == adm.perfil
  {
    if chave == "" then TokenVazio
    else
      assert |TipoEmail| == 5 && |TipoPerfil| == 6 && |TipoRole| > 6;
      Jwt([Claim(TipoEmail, adm.email), Claim(TipoPerfil, adm.perfil), Claim(TipoRole, adm.perfil)],
          agora + SegundosPorDia)
  }

  /** The configured key is never empty, so the program always issues a real token. */
  lemma ChaveConfiguradaSempreEmite(adm: Administrador, agora: int)
    ensures PapelDoToken(GerarTokenJwt(adm, ChaveConfigurada, agora)) == Some(adm.perfil)
  {
    assert ChaveConfigurada != "";
  }
}
