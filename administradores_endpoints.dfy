/**
  The administrator endpoints: login, the list and by-id projections, and creation
  with its inline payload validation.
*/
module AdministradoresEndpoints {
  import opened Wrappers
  import opened Dominio
  import opened Validacao
  import opened Resultados
  import opened Servicos
  import opened Token
  import opened Autorizacao

  const MensagemEmail := "Email não pode ser vazio"
  const MensagemSenha := "Senha não pode ser vazias"
  const MensagemPerfil := "Perfil não pode ser vazio"

  /** The login response body. */
  datatype AdministradorLogado = AdministradorLogado(email: string, perfil: string, token: Token)

  // ---- Login --------------------------------------------------------------------

  /**
    POST /Administradores/login, given what the service's `Login` found for the
    credentials (`None` when it found nobody), the signing key and the current time.
  */
  function Login(adm: Option<Administrador>, chave: string, agora: int): (r: Resposta<AdministradorLogado>)
    ensures r.Ok? <==> adm.Some?
    ensures r.Unauthorized? <==> adm.None?
    ensures r.Ok? ==> && r.corpo.email == adm.value.email
                      && r.corpo.perfil == adm.value.perfil
                      && r.corpo.token == GerarTokenJwt(adm.value, chave, agora)
    ensures r.Ok? && chave != "" ==> PapelDoToken(r.corpo.token) == Some(r.corpo.perfil)
  {
    match adm
    case Some(a) => Ok(AdministradorLogado(a.email, a.perfil, GerarTokenJwt(a, chave, agora)))
    case None => Unauthorized
  }

  // ---- Reading -------------------------------------------------------------------

  /** GET /Administradores: projects, in order, the administrators the service listed. */
  method GetAdministradores(administradores: seq<Administrador>) returns (r: Resposta<seq<AdministradorModelView>>)
    ensures r.Ok?
    ensures |r.corpo| == |administradores|
    ensures forall i :: 0 <= i < |administradores| ==> r.corpo[i] == Projetar(administradores[i])
  {
    var adms: seq<AdministradorModelView> := [];
    var i := 0;
    while i < |administradores|
      invariant 0 <= i <= |administradores|
      invariant |adms| == i
      invariant forall k :: 0 <= k < i ==> adms[k] == Projetar(administradores[k])
    {
      adms := adms + [Projetar(administradores[i])];
      i := i + 1;
    }
    r := Ok(adms);
  }

  /** GET /Administradores/{Id}. */
  method GetAdministrador(id: int, servico: AdministradorServico) returns (r: Resposta<AdministradorModelView>)
    requires servico.Valid()
    ensures r.Ok? || r.NotFound?
    ensures r.NotFound? <==> id !in servico.administradores
    ensures r.Ok? ==> r.corpo == Projetar(servico.administradores[id]) && r.corpo.id == id
  {
    var administrador := servico.BuscaPorId(id);
    if administrador.None? {
      return NotFound;
    }
    r := Ok(Projetar(administrador.value));
  }

  // ---- Creation -------------------------------------------------------------------

  /** The three checks of the creation handler, in the order it runs them. */
  function RegrasAdministrador(dto: AdministradorDTO): seq<Regra>
  {
    [ Regra(NuloOuVazio(dto.email), MensagemEmail),
      Regra(NuloOuVazio(dto.senha), MensagemSenha),
      Regra(dto.perfil.None?, MensagemPerfil) ]
  }

  /** The messages the creation handler reports for a payload. */
  function ErrosAdministrador(dto: AdministradorDTO): seq<string>
  {
    Coletar(RegrasAdministrador(dto))
  }

  /** A payload every check accepts. */
  predicate AdministradorDtoValido(dto: AdministradorDTO)
  {
    !NuloOuVazio(dto.email) && !NuloOuVazio(dto.senha) && dto.perfil.Some?
  }

  /** Rank of an administrator message in the fixed reporting order. */
  function OrdemDaMensagem(m: string): int
  {
    if m == MensagemEmail then 0 else if m == MensagemSenha then 1 else 2
  }

  lemma MensagensDistintas()
    ensures MensagemEmail != MensagemSenha && MensagemEmail != MensagemPerfil && MensagemSenha != MensagemPerfil
  {
    assert MensagemEmail[0] == 'E' && MensagemSenha[0] == 'S' && MensagemPerfil[0] == 'P';
  }

  /** The report split into the three checks' contributions, in order. */
  lemma ErrosAdministradorPorRegra(dto: AdministradorDTO)
    ensures ErrosAdministrador(dto) ==
              (if NuloOuVazio(dto.email) then [MensagemEmail] else [])
              + (if NuloOuVazio(dto.senha) then [MensagemSenha] else [])
              + (if dto.perfil.None? then [MensagemPerfil] else [])
  {
    var r := RegrasAdministrador(dto);
    assert r == [r[0]] + [r[1]] + [r[2]];
    ColetarConcatena([r[0]] + [r[1]], [r[2]]);
    ColetarConcatena([r[0]], [r[1]]);
  }

  /** The report is empty exactly when every check passes. */
  lemma ErrosAdministradorVaziosSeValido(dto: AdministradorDTO)
    ensures ErrosAdministrador(dto) == [] <==> AdministradorDtoValido(dto)
  {
    var r := RegrasAdministrador(dto);
    ColetarVazio(r);
    if !AdministradorDtoValido(dto) {
      assert r[0].falhou || r[1].falhou || r[2].falhou;
    }
  }

  /** Each failed check contributes exactly its own message, in the order email, password, profile. */
  lemma MensagensDoAdministrador(dto: AdministradorDTO)
    ensures MensagemEmail in ErrosAdministrador(dto) <==> NuloOuVazio(dto.email)
    ensures MensagemSenha in ErrosAdministrador(dto) <==> NuloOuVazio(dto.senha)
    ensures MensagemPerfil in ErrosAdministrador(dto) <==> dto.perfil.None?
    ensures |ErrosAdministrador(dto)| <= 3
    ensures forall i, j :: 0 <= i < j < |ErrosAdministrador(dto)| ==>
              OrdemDaMensagem(ErrosAdministrador(dto)[i]) < OrdemDaMensagem(ErrosAdministrador(dto)[j])
  {
    ErrosAdministradorPorRegra(dto);
    MensagensDistintas();
  }

  /** `administradorDTO?.Perfil?.ToString() ?? Perfil.Editor.ToString()`. */
  function PerfilInicial(dto: AdministradorDTO): (p: string)
    ensures dto.perfil.Some? ==> p == NomePerfil(dto.perfil.value)
    ensures p == NomePerfil(Editor) <==> dto.perfil == None || dto.perfil == Some(Editor)
  {
    match dto.perfil
    case Some(p) => NomePerfilInjetivo(p, Editor); NomePerfil(p)
    case None => NomePerfil(Editor)
  }

  /** Validation rejects a missing profile, so the Editor default is never used for a stored administrator. */
  lemma PadraoEditorNuncaUsado(dto: AdministradorDTO)
    requires ErrosAdministrador(dto) == []
    ensures dto.perfil.Some? && PerfilInicial(dto) == NomePerfil(dto.perfil.value)
  {
    ErrosAdministradorVaziosSeValido(dto);
  }

  /** The administrator a creation builds from an accepted payload, before the store assigns its id. */
  function NovoAdministrador(dto: AdministradorDTO): (a: Administrador)
    requires AdministradorDtoValido(dto)
    ensures Some(a.email) == dto.email && Some(a.senha) == dto.senha
    ensures a.email != "" && a.senha != "" && a.perfil == NomePerfil(dto.perfil.value)
  {
    Administrador(0, dto.email.value, dto.senha.value, PerfilInicial(dto))
  }

  /** The Location a creation reports: "/Administradores/{id}". */
  function LocalDoAdministrador(id: int): Local
  {
    Local("Administradores", id)
  }

  /** The reported Location is served by GET /Administradores/{Id}. */
  lemma LocalDoAdministradorTemRota(id: int)
    ensures AdministradorPorId in Tabela && AdministradorPorId.verbo == Get
    ensures RotaCasa(AdministradorPorId, LocalDoAdministrador(id))
  {
  }

  /** POST /Administradores: any message means 400 and nothing is stored. */
  method PostAdministradores(dto: AdministradorDTO, servico: AdministradorServico) returns (r: Resposta<AdministradorModelView>)
    requires servico.Valid()
    modifies servico
    ensures servico.Valid()
    ensures !AdministradorDtoValido(dto) ==> r == BadRequest(ErrosAdministrador(dto)) && unchanged(servico)
    ensures AdministradorDtoValido(dto) ==>
              && r.Created?
              && r.local == LocalDoAdministrador(r.corpo.id)
              && r.corpo.id !in old(servico.administradores)
              && servico.administradores == old(servico.administradores)[r.corpo.id := NovoAdministrador(dto).(id := r.corpo.id)]
              && r.corpo == Projetar(servico.administradores[r.corpo.id])
              && r.corpo.perfil == NomePerfil(dto.perfil.value)
  {
    var mensagens: seq<string> := [];
    if NuloOuVazio(dto.email) {
      mensagens := mensagens + [MensagemEmail];
    }
    if NuloOuVazio(dto.senha) {
      mensagens := mensagens + [MensagemSenha];
    }
    if dto.perfil.None? {
      mensagens := mensagens + [MensagemPerfil];
    }
    ErrosAdministradorPorRegra(dto);
    ErrosAdministradorVaziosSeValido(dto);
    if |mensagens| > 0 {
      return BadRequest(mensagens);
    }
    var salvo := servico.Incluir(NovoAdministrador(dto));
    r := Created(LocalDoAdministrador(salvo.id), Projetar(salvo));
  }
}
