/**
  The static authorization metadata of every endpoint and the decision the framework
  derives from it. A `Roles` string is the comma-separated list of accepted roles; the
  caller's role is the value of the role claim of its verified token.
*/
module Autorizacao {
  import opened Wrappers
  import opened Dominio
  import opened Token
  import opened Resultados

  // ---- Roles strings -------------------------------------------------------

  /** `s.Split(sep)`: the pieces between separators, always at least one. */
  function Dividir(s: string, sep: char): (partes: seq<string>)
    ensures |partes| >= 1
    ensures forall k :: 0 <= k < |partes| ==> sep !in partes[k]
  {
    if s == [] then [""]
    else
      var resto := Dividir(s[1..], sep);
      if s[0] == sep then [""] + resto
      else [[s[0]] + resto[0]] + resto[1..]
  }

  /** `string.Join(sep, partes)`. */
  function Juntar(partes: seq<string>, sep: char): string
  {
    if partes == [] then ""
    else if |partes| == 1 then partes[0]
    else partes[0] + [sep] + Juntar(partes[1..], sep)
  }

  /** Splitting loses nothing: joining the pieces gives back the string. */
  lemma {:induction false} JuntarDividir(s: string, sep: char)
    ensures Juntar(Dividir(s, sep), sep) == s
  {
    if s != [] {
      var resto := Dividir(s[1..], sep);
      JuntarDividir(s[1..], sep);
      if s[0] == sep {
        assert ([""] + resto)[1..] == resto;
      } else if |resto| == 1 {
        assert Dividir(s, sep) == [[s[0]] + resto[0]];
      } else {
        var partes := [[s[0]] + resto[0]] + resto[1..];
        assert partes[1..] == resto[1..];
        assert Juntar(resto, sep) == resto[0] + [sep] + Juntar(resto[1..], sep);
        assert s == [s[0]] + s[1..];
      }
    }
  }

  /** Pieces free of the separator are recovered by splitting their join. */
  lemma {:induction false} DividirJuntar(partes: seq<string>, sep: char)
    requires |partes| >= 1
    requires forall k :: 0 <= k < |partes| ==> sep !in partes[k]
    ensures Dividir(Juntar(partes, sep), sep) == partes
  {
    if |partes| == 1 {
      DividirSemSeparador(partes[0], sep);
    } else {
      var cauda := partes[1..];
      DividirJuntar(cauda, sep);
      DividirPrefixo(partes[0], sep, Juntar(cauda, sep));
      assert [partes[0]] + cauda == partes;
    }
  }

  /** A string without the separator splits into itself. */
  lemma {:induction false} DividirSemSeparador(s: string, sep: char)
    requires sep !in s
    ensures Dividir(s, sep) == [s]
  {
    if s != [] {
      DividirSemSeparador(s[1..], sep);
      assert [s[0]] + s[1..] == s;
    }
  }

  /** A separator-free prefix followed by a separator becomes the first piece. */
  lemma {:induction false} DividirPrefixo(p: string, sep: char, resto: string)
    requires sep !in p
    ensures Dividir(p + [sep] + resto, sep) == [p] + Dividir(resto, sep)
  {
    var s := p + [sep] + resto;
    if p == [] {
      assert s[0] == sep && s[1..] == resto;
    } else {
      assert s[0] == p[0] && s[1..] == p[1..] + [sep] + resto;
      DividirPrefixo(p[1..], sep, resto);
      assert [p[0]] + p[1..] == p;
    }
  }

  /** The pieces that are not empty, in order. */
  function SemVazios(partes: seq<string>): (r: seq<string>)
    ensures forall x :: x in r <==> x in partes && x != ""
  {
    if partes == [] then []
    else (if partes[0] == "" then [] else [partes[0]]) + SemVazios(partes[1..])
  }

  /** The roles a `Roles` string names. */
  function PapeisExigidos(roles: string): (papeis: seq<string>)
    ensures forall p :: p in papeis <==> p in Dividir(roles, ',') && p != ""
    ensures forall p :: p in papeis ==> ',' !in p
  {
    SemVazios(Dividir(roles, ','))
  }

  /** A caller holding `papel` satisfies a `Roles` requirement. */
  predicate PapelPermitido(roles: string, papel: string)
    ensures PapelPermitido(roles, papel) ==> papel != "" && ',' !in papel
    ensures PapelPermitido(roles, papel) <==> papel != "" && papel in Dividir(roles, ',')
  {
    papel in PapeisExigidos(roles)
  }

  lemma PapeisDeAdm()
    ensures PapeisExigidos("Adm") == [NomePerfil(Adm)]
  {
    DividirSemSeparador("Adm", ',');
  }

  lemma PapeisDeAdmEditor()
    ensures PapeisExigidos("Adm,Editor") == [NomePerfil(Adm), NomePerfil(Editor)]
  {
    assert "Adm,Editor" == Juntar(["Adm", "Editor"], ',');
    DividirJuntar(["Adm", "Editor"], ',');
  }

  // ---- The endpoint table ----------------------------------------------------

  datatype Verbo = Get | Post | Put | Delete

  /** A route segment: a literal or the `{Id}` parameter. */
  datatype Segmento = Literal(texto: string) | ParametroId

  /**
    An endpoint's route and authorization metadata: `AllowAnonymous()`, a plain
    `RequireAuthorization()`, and the `Roles` of a `RequireAuthorization(new AuthorizeAttribute { Roles = … })`.
  */
  datatype Endpoint = Endpoint(
    verbo: Verbo,
    rota: seq<Segmento>,
    permiteAnonimo: bool,
    exigeAutenticacao: bool,
    papeis: Option<string>)

  const Home := Endpoint(Get, [], true, false, None)
  const LoginAdministrador := Endpoint(Post, [Literal("Administradores"), Literal("login")], true, true, Some("Adm"))
  const ListaAdministradores := Endpoint(Get, [Literal("Administradores")], false, true, Some("Adm"))
  const AdministradorPorId := Endpoint(Get, [Literal("Administradores"), ParametroId], false, true, Some("Adm"))
  const CriaAdministrador := Endpoint(Post, [Literal("Administradores")], false, true, Some("Adm"))
  const CriaVeiculo := Endpoint(Post, [Literal("veiculos")], false, true, Some("Adm,Editor"))
  const ListaVeiculos := Endpoint(Get, [Literal("veiculos")], false, true, Some("Adm"))
  const VeiculoPorId := Endpoint(Get, [Literal("veiculos"), ParametroId], false, true, Some("Adm,Editor"))
  const AtualizaVeiculo := Endpoint(Put, [Literal("veiculos"), ParametroId], false, true, Some("Adm"))
  const ApagaVeiculo := Endpoint(Delete, [Literal("veiculos"), ParametroId], false, true, Some("Adm"))

  const Tabela: seq<Endpoint> := [
    Home, LoginAdministrador, ListaAdministradores, AdministradorPorId, CriaAdministrador,
    CriaVeiculo, ListaVeiculos, VeiculoPorId, AtualizaVeiculo, ApagaVeiculo
  ]

  /** The endpoint's route matches the path of the location. */
  predicate RotaCasa(e: Endpoint, l: Local)
    ensures RotaCasa(e, l) ==> |e.rota| == 2 && e.rota[0].Literal? && e.rota[1] == ParametroId
  {
    e.rota == [Literal(l.colecao), ParametroId]
  }

  /** Every role a table entry names is the printed name of a profile: no misspelt role. */
  lemma PapeisDaTabelaSaoPerfis()
    ensures forall e, r :: e in Tabela && e.papeis.Some? && r in PapeisExigidos(e.papeis.value) ==>
              r == NomePerfil(Adm) || r == NomePerfil(Editor)
  {
    forall e, r | e in Tabela && e.papeis.Some? && r in PapeisExigidos(e.papeis.value)
      ensures r == NomePerfil(Adm) || r == NomePerfil(Editor)
    {
      RolesDaTabela(e);
      if e.papeis.value == "Adm" {
        PapeisDeAdm();
      } else {
        PapeisDeAdmEditor();
      }
    }
  }

  /**
    The table in outline: home and login are the anonymous endpoints; every other one
    requires authentication and either "Adm" or, for vehicle creation and lookup, "Adm,Editor".
  */
  lemma RolesDaTabela(e: Endpoint)
    requires e in Tabela
    ensures e.papeis == None || e.papeis == Some("Adm") || e.papeis == Some("Adm,Editor")
    ensures e.permiteAnonimo <==> e == Home || e == LoginAdministrador
    ensures !e.permiteAnonimo ==> e.exigeAutenticacao && e.papeis.Some?
    ensures !e.permiteAnonimo ==> (e.papeis == Some("Adm,Editor") <==> e == CriaVeiculo || e == VeiculoPorId)
  {
  }

  /** What the two `Roles` strings of the table accept. */
  lemma PermissoesDosRoles()
    ensures PapelPermitido("Adm", NomePerfil(Adm)) && !PapelPermitido("Adm", NomePerfil(Editor))
    ensures PapelPermitido("Adm,Editor", NomePerfil(Adm)) && PapelPermitido("Adm,Editor", NomePerfil(Editor))
  {
    PapeisDeAdm();
    PapeisDeAdmEditor();
    NomePerfilInjetivo(Adm, Editor);
  }

  // ---- The decision ------------------------------------------------------------

  /** Allowed; 401 (no verified identity); 403 (identity without an accepted role). */
  datatype Decisao = Permitir | NaoAutenticado | Proibido

  /** The endpoint carries some authorization requirement. */
  predicate TemPolitica(e: Endpoint)
  {
    e.exigeAutenticacao || e.papeis.Some?
  }

  /**
    The authorization middleware's verdict for a caller whose verified token proves
    `papel` (`None` when there is no valid token). `AllowAnonymous` metadata skips
    every requirement.
  */
  function Autorizar(e: Endpoint, papel: Option<string>): (d: Decisao)
    ensures d == NaoAutenticado ==> papel.None?
    ensures d == Proibido ==> papel.Some? && e.papeis.Some? && !PapelPermitido(e.papeis.value, papel.value)
    ensures d == Permitir && !e.permiteAnonimo && TemPolitica(e) ==>
              papel.Some? && (e.papeis.Some? ==> PapelPermitido(e.papeis.value, papel.value))
    ensures e.permiteAnonimo || !TemPolitica(e) ==> d == Permitir
    ensures !e.permiteAnonimo && TemPolitica(e) && papel.None? ==> d == NaoAutenticado
    ensures !e.permiteAnonimo && papel.Some? && e.papeis.Some? && !PapelPermitido(e.papeis.value, papel.value) ==>
              d == Proibido
  {
    if e.permiteAnonimo || !TemPolitica(e) then Permitir
    else if papel.None? then NaoAutenticado
    else if e.papeis.Some? && !PapelPermitido(e.papeis.value, papel.value) then Proibido
    else Permitir
  }

  /** Without a token, only the anonymous endpoints answer; all others give 401. */
  lemma SemCredencial(e: Endpoint)
    requires e in Tabela
    ensures Autorizar(e, None) == (if e.permiteAnonimo then Permitir else NaoAutenticado)
  {
  }

  /** An Adm token passes every endpoint. */
  lemma AdmAcessaTudo(e: Endpoint)
    requires e in Tabela
    ensures Autorizar(e, Some(NomePerfil(Adm))) == Permitir
  {
    RolesDaTabela(e);
    PermissoesDosRoles();
  }

  /** An Editor token passes only vehicle creation, vehicle lookup and the anonymous endpoints. */
  lemma EditorAcessaSoVeiculos(e: Endpoint)
    requires e in Tabela
    ensures Autorizar(e, Some(NomePerfil(Editor))) == Permitir <==>
              e.permiteAnonimo || e == CriaVeiculo || e == VeiculoPorId
    ensures Autorizar(e, Some(NomePerfil(Editor))) != NaoAutenticado
  {
    RolesDaTabela(e);
    PermissoesDosRoles();
  }

  /** A role that is no profile's name is refused wherever authorization is required. */
  lemma PapelDesconhecido(e: Endpoint, papel: string)
    requires e in Tabela
    requires papel != NomePerfil(Adm) && papel != NomePerfil(Editor)
    ensures Autorizar(e, Some(papel)) == (if e.permiteAnonimo then Permitir else Proibido)
  {
    RolesDaTabela(e);
    PapeisDaTabelaSaoPerfis();
  }

  /**
    The login endpoint declares both `AllowAnonymous()` and a requirement for the Adm role;
    the anonymous marker wins, so anyone may call it.
  */
  lemma LoginAnonimoApesarDoPapel(papel: Option<string>)
    ensures LoginAdministrador.papeis == Some(NomePerfil(Adm)) && LoginAdministrador.exigeAutenticacao
    ensures Autorizar(LoginAdministrador, papel) == Permitir
  {
  }

  /** The verdict for the bearer of an issued token is the verdict for its administrator's profile. */
  lemma TokenDecideComoPerfil(adm: Administrador, chave: string, agora: int, e: Endpoint)
    requires chave != ""
    ensures Autorizar(e, PapelDoToken(GerarTokenJwt(adm, chave, agora))) == Autorizar(e, Some(adm.perfil))
  {
  }
}
