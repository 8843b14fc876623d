# minimal-api: validation, authorization and token pipeline in Dafny

This project models the logic of `Program.cs` from a small ASP.NET Core "minimal API" that manages vehicles
(`Veiculo`) and administrators (`Administrador`). It also models the `Veiculo` entity from
`Dominio/Entidades/Veiculo.cs`. The model covers:

- **Payload validators.** `valIdaDTO` checks a vehicle payload. The administrator creation handler runs an
  inline check of its own. Both follow one discipline: each check runs in a fixed order and adds its own
  message when it fails. `Validacao.Coletar` states this discipline once. `VeiculosEndpoints.ValidaDTO`
  builds its message list step by step and is proved equal to it.
- **Stores.** `IVeiculoServico` and the administrator service become the classes `Servicos.VeiculoServico`
  and `Servicos.AdministradorServico`. Each holds a `map<int, …>` and the next identity value. `Incluir`
  hands out the next identity value and advances it, as the database's identity column does, so a key
  is never handed out twice.
- **Handlers.** The vehicle POST, PUT and DELETE handlers are methods that change the store. The vehicle
  GET-by-id handler is a method that only reads it.
  The administrator login, list, get-by-id and create handlers are modelled too. Each handler gives exactly
  one outcome per path: `BadRequest`, `NotFound`, `Created`, `Ok`, `NoContent` or `Unauthorized`.
- **Token issuance.** `GerarTokenJwt` is modelled with the signed token abstracted to its claim list and
  its expiry in integer seconds. An empty key gives the empty token.
- **Authorization.** The per-endpoint metadata becomes a static table: `AllowAnonymous`, plain
  `RequireAuthorization`, and the comma-separated `Roles` string. A decision function (`Autorizar`) maps
  an endpoint and the role proved by the caller's token to allow, 401 or 403.

Quirks modelled as written:

- The signing key is `GetSection("Jwt").ToString()` (Program.cs:22). That prints the section's type name,
  so the key is never empty and the fail-closed branch never runs in the deployed program
  (`Token.ChaveConfiguradaSempreEmite`). Elsewhere the key is a parameter.
- The login route declares both `AllowAnonymous()` and `RequireAuthorization(Roles = "Adm")`
  (Program.cs:140). The anonymous marker wins, so anyone may call it.
- POST /veiculos reports the Location "/veiculo/{id}" (Program.cs:277). No route has that singular
  path (`VeiculosEndpoints.LocalDoVeiculoSemRota`). The administrator Location does match a route.
- `valIdaDTO` checks emptiness and the year only. A name longer than 155 characters, a brand longer than
  100, or a name made only of white space passes validation. Each of these breaks the constraints that
  `Veiculo` declares.
- After validation the profile cannot be null, so the `?? Perfil.Editor` default at Program.cs:213 is
  never used.

The role names are "Adm" and "Editor" (Program.cs:162, 280). Login is anonymous because `AllowAnonymous()`
overrides its `Roles = "Adm"` requirement (Program.cs:140). The key is `GetSection("Jwt").ToString()`
(Program.cs:22).

The files `Dominio/DTOs`, `Dominio/ModelViews`, `Dominio/Enuns` and `Dominio/Entidades/Administrador.cs`
are not part of this model. Module `Dominio` gives their shapes as `Program.cs` uses them:
`Perfil = Adm | Editor`, and DTO strings that may be null (`Option<string>`).

## Model

| member | source | states |
|---|---|---|
| `Validacao.Coletar` | Program.cs:233-257 | a validator reports at most one message per check |
| `Validacao.ColetarVazio` | Program.cs:205-206 | the report is empty exactly when no check failed |
| `Validacao.ColetarConcatena` | Program.cs:241-254 | messages of earlier checks precede messages of later checks |
| `Validacao.ColetarContem` | Program.cs:193-202 | a message is reported exactly when a check carrying it failed |
| `Validacao.NuloOuVazio` | Program.cs:241 | `string.IsNullOrEmpty`: true exactly for null and for the empty string |
| `Entidades.VeiculoValido` | Dominio/Entidades/Veiculo.cs:12-18 | the declared constraints; a record meeting them has a non-empty name and brand |
| `VeiculosEndpoints.NovoVeiculo` | Program.cs:268-274 | the record built from an accepted payload carries its name, brand and year, which are non-empty and at least 1950 |
| `VeiculosEndpoints.ValidaDTO` | Program.cs:233-257 | the step-by-step `Add` sequence yields the ordered report, and it is empty iff name and brand are non-empty and year ≥ 1950 |
| `VeiculosEndpoints.ErrosVeiculoPorRegra` | Program.cs:241-254 | the vehicle report is the name, brand and year contributions in that order |
| `VeiculosEndpoints.ErrosVeiculoVaziosSeValido` | Program.cs:262-266 | the vehicle report is empty iff the payload passes every check |
| `VeiculosEndpoints.MensagensDoVeiculo` | Program.cs:241-254 | each message appears iff its check fails, at most 3, strictly in the order name, brand, year |
| `VeiculosEndpoints.FronteiraDoAno` | Program.cs:251-254 | the year message appears iff Ano ≤ 1949, whatever the other fields |
| `VeiculosEndpoints.SoONomeVazio` | Program.cs:241-244 | an empty name with a valid brand and year gives exactly the name message |
| `VeiculosEndpoints.AnotacoesImplicamValidacao` | Dominio/Entidades/Veiculo.cs:12-18 | a record meeting the entity constraints and the year bound passes validation |
| `VeiculosEndpoints.NomeLongoPassa` | Dominio/Entidades/Veiculo.cs:12-14 | a valid payload with a name over 155 characters passes validation yet breaks the entity constraint |
| `VeiculosEndpoints.MarcaLongaPassa` | Dominio/Entidades/Veiculo.cs:16-18 | a valid payload with a brand over 100 characters passes validation yet breaks the entity constraint |
| `VeiculosEndpoints.NomeEmBrancoPassa` | Dominio/Entidades/Veiculo.cs:12-14 | a blank, non-empty name passes validation yet breaks `[Required]` |
| `VeiculosEndpoints.LocalDoVeiculoSemRota` | Program.cs:277 | the Location of a created vehicle matches no route of the table |
| `VeiculosEndpoints.PostVeiculos` | Program.cs:259-277 | an invalid payload gives BadRequest with its report and leaves the store unchanged; a valid one stores exactly one new record under a fresh key with the payload's fields and returns Created with it |
| `VeiculosEndpoints.GetVeiculo` | Program.cs:295-302 | Ok with the record stored under the id (whose id is that id), NotFound iff the id is absent |
| `VeiculosEndpoints.PutVeiculo` | Program.cs:308-327 | validation comes first (BadRequest even for a missing id); a missing id gives NotFound; otherwise only that record changes, it keeps its id and takes the payload's name, brand and year |
| `VeiculosEndpoints.DeleteVeiculo` | Program.cs:332-340 | a missing id gives NotFound with no change; otherwise exactly that key is removed and the result is NoContent |
| `VeiculosEndpoints.CriarEBuscar` | Program.cs:259-302 | a vehicle created by POST is found by GET under the returned id with the payload's field values |
| `Servicos.VeiculoServico.Incluir` | Dominio/Entidades/Veiculo.cs:8-10 | the id comes from the store: it is the next identity value, which then advances by one, so it is not in the store and never handed out again; the other fields are kept and no other key changes |
| `Servicos.VeiculoServico.BuscaPorId` | Infraestrutura/Interfaces/IVeiculoServico.cs:9 | the record under the id, or null when the key is absent |
| `Servicos.VeiculoServico.Atualizar` | Infraestrutura/Interfaces/IVeiculoServico.cs:12 | only the record's own key is overwritten |
| `Servicos.VeiculoServico.Apagar` | Infraestrutura/Interfaces/IVeiculoServico.cs:14 | only the record's own key is removed |
| `Servicos.AdministradorServico.BuscaPorId` | Program.cs:169 | the administrator under the id, or null when the key is absent |
| `Servicos.AdministradorServico.Incluir` | Program.cs:216 | the new administrator gets the next identity value, which then advances by one, so it is not in the store and never handed out again; nothing else changes |
| `Dominio.Projetar` | Program.cs:150-155 | the view keeps the administrator's Id, Email and Perfil |
| `Dominio.ProjecaoPerdeSoASenha` | Program.cs:173-178 | two administrators project alike iff they differ at most in the password |
| `Dominio.NomePerfilInjetivo` | Program.cs:213 | distinct profiles print as distinct role names |
| `Token.GerarTokenJwt` | Program.cs:96-119 | empty token iff the key is empty; otherwise exactly three claims (email, profile, role) whose values are only the email and the profile, role equal to profile, and expiry one day after issuance |
| `Token.ChaveConfiguradaSempreEmite` | Program.cs:22 | with the key as configured, a token is always issued and proves the administrator's profile |
| `AdministradoresEndpoints.Login` | Program.cs:121-139 | Ok iff the service found an administrator, with its email, profile and the token issued for it; otherwise Unauthorized |
| `AdministradoresEndpoints.GetAdministradores` | Program.cs:143-159 | Ok with one password-free view per listed administrator, same length and order |
| `AdministradoresEndpoints.GetAdministrador` | Program.cs:166-179 | Ok with the password-free view of the stored administrator, NotFound iff the id is absent |
| `AdministradoresEndpoints.ErrosAdministradorPorRegra` | Program.cs:193-202 | the administrator report is the email, password and profile contributions in that order |
| `AdministradoresEndpoints.ErrosAdministradorVaziosSeValido` | Program.cs:205-206 | the administrator report is empty iff email and password are non-empty and a profile is given |
| `AdministradoresEndpoints.MensagensDoAdministrador` | Program.cs:193-202 | each message appears iff its check fails, at most 3, strictly in the order email, password, profile |
| `AdministradoresEndpoints.PerfilInicial` | Program.cs:213 | a given profile is stored by its name; the result is "Editor" exactly when the profile is null or Editor |
| `AdministradoresEndpoints.NovoAdministrador` | Program.cs:209-215 | the administrator built from an accepted payload carries its non-empty email and password and the requested profile's name |
| `AdministradoresEndpoints.PadraoEditorNuncaUsado` | Program.cs:201-213 | once validation passes, the stored profile is the requested one and the Editor default is dead |
| `AdministradoresEndpoints.LocalDoAdministradorTemRota` | Program.cs:218 | the Location of a created administrator is served by GET /Administradores/{Id} |
| `AdministradoresEndpoints.PostAdministradores` | Program.cs:186-224 | any message gives BadRequest with the ordered report and nothing is stored; otherwise one new administrator with the payload's fields under a fresh key, returned as Created without the password |
| `Autorizacao.JuntarDividir` | Program.cs:280 | splitting a Roles string on commas loses nothing |
| `Autorizacao.DividirJuntar` | Program.cs:280 | comma-free role names are recovered by splitting their comma-joined list |
| `Autorizacao.PapeisExigidos` | Program.cs:280 | the roles of a Roles string are exactly its non-empty comma-separated pieces, none containing a comma |
| `Autorizacao.PapelPermitido` | Program.cs:305 | a role is accepted exactly when it is non-empty and one of the comma-separated pieces |
| `Autorizacao.RotaCasa` | Program.cs:295 | a Location "/colecao/id" matches only a two-segment route of a literal followed by `{Id}` |
| `Autorizacao.PapeisDeAdm` | Program.cs:162 | "Adm" names exactly the Adm profile |
| `Autorizacao.PapeisDeAdmEditor` | Program.cs:280 | "Adm,Editor" names exactly the Adm and Editor profiles, in that order |
| `Autorizacao.RolesDaTabela` | Program.cs:92-343 | only home and login are anonymous; every other endpoint requires authentication and "Adm", or "Adm,Editor" exactly for vehicle creation and lookup |
| `Autorizacao.PermissoesDosRoles` | Program.cs:280 | "Adm" accepts Adm and refuses Editor; "Adm,Editor" accepts both |
| `Autorizacao.PapeisDaTabelaSaoPerfis` | Program.cs:140-342 | every role named in the endpoint table is a profile's name |
| `Autorizacao.Autorizar` | Program.cs:161-162 | `AllowAnonymous` or no requirement means allow; otherwise no identity gives 401, an identity whose role is not among the endpoint's roles gives 403, and an allow means an identity with an accepted role |
| `Autorizacao.SemCredencial` | Program.cs:92-343 | without a token only the home and login endpoints answer; every other endpoint gives 401 |
| `Autorizacao.AdmAcessaTudo` | Program.cs:140-342 | the Adm role passes every endpoint |
| `Autorizacao.EditorAcessaSoVeiculos` | Program.cs:279-306 | the Editor role passes exactly vehicle creation, vehicle lookup and the anonymous endpoints |
| `Autorizacao.PapelDesconhecido` | Program.cs:140-342 | a role that is no profile's name passes only the anonymous endpoints |
| `Autorizacao.LoginAnonimoApesarDoPapel` | Program.cs:140 | the login endpoint requires the Adm role and authentication, yet any caller is allowed |
| `Autorizacao.TokenDecideComoPerfil` | Program.cs:105-107 | the bearer of an issued token is judged exactly as its administrator's profile |

## Left out

- JWT serialisation, HMAC-SHA256 signing (RFC 7519; "HS256" in section 3.2 of RFC 7518) and token validation, including the `exp` check (section 4.1.4 of RFC 7519) and its clock skew: these are library calls. The token is the abstract value (claims, expiry).
- Token.GerarTokenJwt: issues a token for every non-empty key. The signing library also rejects keys shorter than 256 bits when it signs; that rejection is not modelled.
- The authentication and authorization middleware and their ordering (Program.cs:25-41, 354-355): only the static table and the decision it implies are modelled.
- Autorizacao.PapeisExigidos: the framework also trims white space around each role name. No `Roles` string in the table contains white space, so trimming is not modelled.
- Autorizacao.RotaCasa: route matching is case-insensitive in the framework; the model compares literally. The one mismatch it reports ("veiculo" against "veiculos") differs in length, so case does not affect it.
- GET /veiculos (Program.cs:283-292): it returns the service's `Todos(pagina)`, whose paging and name/brand filters are not shown. The handler is not modelled.
- AdministradoresEndpoints.GetAdministradores: takes the list `Todos(pagina)` returned as a parameter, because paging is not shown. `Login` likewise takes the result of the unseen credential check `Login(loginDTO)`.
- Wall-clock time: `DateTime.Now` is the parameter `agora` in integer seconds; local time against UTC is not modelled.
- EF Core/MySQL configuration, connection strings (Program.cs:45-53), Swagger (Program.cs:58-85, 351-352), the Home payload (Program.cs:92), HTTP/JSON binding and malformed bodies.
- Persistence failures (exceptions from the database) are not modelled; every store call succeeds.
- Servicos.VeiculoServico.Atualizar and Servicos.VeiculoServico.Apagar require the key to be present: the concrete service is not shown, and its only callers pass a record they have just found.
- The PUT handler changes a tracked entity in place (Program.cs:321-323). The model builds the updated record as a value and stores it; aliasing between the found object and the store is not modelled.
- `[StringLength(10)]` on the integer `Ano` (Dominio/Entidades/Veiculo.cs:20-22) has no string to measure and adds no constraint in the model.
- String lengths count Unicode scalar values; .NET counts UTF-16 code units, which differ for characters outside the Basic Multilingual Plane.
- `Perfil` is a closed two-member enumeration. An out-of-range numeric enum value, which .NET would print as a number, is not modelled.
