/**
  The vehicle endpoints: payload validation (`valIdaDTO`) and the POST, GET-by-id,
  PUT and DELETE handlers over the vehicle store.
*/
module VeiculosEndpoints {
  import opened Wrappers
  import opened Entidades
  import opened Dominio
  import opened Validacao
  import opened Resultados
  import opened Servicos
  import opened Autorizacao

  const MensagemNome := "O nome não pode ser vazio"
  const MensagemMarca := "A marca não pode ser vazio"
  const MensagemAno := "Veiculo muito antigo, aceito somente anos superiores a 1950."
  const AnoMinimo := 1950

  // ---- Validation -------------------------------------------------------------

  /** The three checks of `valIdaDTO`, in the order it runs them. */
  function RegrasVeiculo(dto: VeiculoDTO): seq<Regra>
  {
    [ Regra(NuloOuVazio(dto.nome), MensagemNome),
      Regra(NuloOuVazio(dto.marca), MensagemMarca),
      Regra(dto.ano < AnoMinimo, MensagemAno) ]
  }

  /** The messages `valIdaDTO` reports for a payload. */
  function ErrosVeiculo(dto: VeiculoDTO): seq<string>
  {
    Coletar(RegrasVeiculo(dto))
  }

  /** A payload every check accepts. */
  predicate DtoValido(dto: VeiculoDTO)
  {
    !NuloOuVazio(dto.nome) && !NuloOuVazio(dto.marca) && dto.ano >= AnoMinimo
  }

  /** Rank of a vehicle message in the fixed reporting order. */
  function OrdemDaMensagem(m: string): int
  {
    if m == MensagemNome then 0 else if m == MensagemMarca then 1 else 2
  }

  lemma MensagensDistintas()
    ensures MensagemNome != MensagemMarca && MensagemNome != MensagemAno && MensagemMarca != MensagemAno
  {
    assert |MensagemNome| == 25 && |MensagemMarca| == 26 && |MensagemAno| > 26;
  }

  /** The report split into the three checks' contributions, in order. */
  lemma ErrosVeiculoPorRegra(dto: VeiculoDTO)
    ensures ErrosVeiculo(dto) ==
              (if NuloOuVazio(dto.nome) then [MensagemNome] else [])
              + (if NuloOuVazio(dto.marca) then [MensagemMarca] else [])
              + (if dto.ano < AnoMinimo then [MensagemAno] else [])
  {
    var r := RegrasVeiculo(dto);
    assert r == [r[0]] + [r[1]] + [r[2]];
    ColetarConcatena([r[0]] + [r[1]], [r[2]]);
    ColetarConcatena([r[0]], [r[1]]);
  }

  /** The report is empty exactly when every check passes. */
  lemma ErrosVeiculoVaziosSeValido(dto: VeiculoDTO)
    ensures ErrosVeiculo(dto) == [] <==> DtoValido(dto)
  {
    var r := RegrasVeiculo(dto);
    ColetarVazio(r);
    if !DtoValido(dto) {
      assert r[0].falhou || r[1].falhou || r[2].falhou;
    }
  }

  /**
    Each failed check contributes exactly its own message, the messages follow the order
    name, brand, year, and so there are at most three.
  */
  lemma MensagensDoVeiculo(dto: VeiculoDTO)
    ensures MensagemNome in ErrosVeiculo(dto) <==> NuloOuVazio(dto.nome)
    ensures MensagemMarca in ErrosVeiculo(dto) <==> NuloOuVazio(dto.marca)
    ensures MensagemAno in ErrosVeiculo(dto) <==> dto.ano < AnoMinimo
    ensures |ErrosVeiculo(dto)| <= 3
    ensures forall i, j :: 0 <= i < j < |ErrosVeiculo(dto)| ==>
              OrdemDaMensagem(ErrosVeiculo(dto)[i]) < OrdemDaMensagem(ErrosVeiculo(dto)[j])
  {
    ErrosVeiculoPorRegra(dto);
    MensagensDistintas();
  }

  /** 1949 is always reported as too old, whatever the other fields; 1950 never is. */
  lemma FronteiraDoAno(dto: VeiculoDTO)
    ensures MensagemAno in ErrosVeiculo(dto) <==> dto.ano <= 1949
  {
    MensagensDoVeiculo(dto);
  }

  /** An empty name with a valid brand and year reports the name message alone. */
  lemma SoONomeVazio(marca: string, ano: int)
    requires marca != "" && ano >= AnoMinimo
    ensures ErrosVeiculo(VeiculoDTO(Some(""), Some(marca), ano)) == [MensagemNome]
  {
    ErrosVeiculoPorRegra(VeiculoDTO(Some(""), Some(marca), ano));
  }

  /** `valIdaDTO`: one `Add` per failed check, in order. */
  method ValidaDTO(dto: VeiculoDTO) returns (mensagens: seq<string>)
    ensures mensagens == ErrosVeiculo(dto)
    ensures mensagens == [] <==> DtoValido(dto)
  {
    mensagens := [];
    if NuloOuVazio(dto.nome) {
      mensagens := mensagens + [MensagemNome];
    }
    if NuloOuVazio(dto.marca) {
      mensagens := mensagens + [MensagemMarca];
    }
    if dto.ano < AnoMinimo {
      mensagens := mensagens + [MensagemAno];
    }
    ErrosVeiculoPorRegra(dto);
    ErrosVeiculoVaziosSeValido(dto);
  }

  // ---- Validation against the entity's declared constraints ------------------------

  /** The record a POST builds from an accepted payload, before the store assigns its id. */
  function NovoVeiculo(dto: VeiculoDTO): (v: Veiculo)
    requires DtoValido(dto)
    ensures Some(v.nome) == dto.nome && Some(v.marca) == dto.marca && v.ano == dto.ano
    ensures v.nome != "" && v.marca != "" && v.ano >= AnoMinimo
  {
    Veiculo(0, dto.nome.value, dto.marca.value, dto.ano)
  }

  /** A record meeting the entity's constraints (and the year bound) passes validation. */
  lemma AnotacoesImplicamValidacao(v: Veiculo)
    requires VeiculoValido(v) && v.ano >= AnoMinimo
    ensures ErrosVeiculo(VeiculoDTO(Some(v.nome), Some(v.marca), v.ano)) == []
  {
    ErrosVeiculoVaziosSeValido(VeiculoDTO(Some(v.nome), Some(v.marca), v.ano));
  }

  /** Validation does not check the 155-character limit: a longer name is accepted. */
  lemma NomeLongoPassa(dto: VeiculoDTO)
    requires DtoValido(dto) && |dto.nome.value| > ComprimentoMaximoNome
    ensures ErrosVeiculo(dto) == [] && !VeiculoValido(NovoVeiculo(dto))
  {
    ErrosVeiculoVaziosSeValido(dto);
  }

  /** Validation does not check the 100-character limit: a longer brand is accepted. */
  lemma MarcaLongaPassa(dto: VeiculoDTO)
    requires DtoValido(dto) && |dto.marca.value| > ComprimentoMaximoMarca
    ensures ErrosVeiculo(dto) == [] && !VeiculoValido(NovoVeiculo(dto))
  {
    ErrosVeiculoVaziosSeValido(dto);
  }

  /** Validation tests emptiness, not white space: a blank name is accepted. */
  lemma NomeEmBrancoPassa(dto: VeiculoDTO)
    requires DtoValido(dto)
    requires forall i :: 0 <= i < |dto.nome.value| ==> EspacoEmBranco(dto.nome.value[i])
    ensures ErrosVeiculo(dto) == [] && !VeiculoValido(NovoVeiculo(dto))
  {
    ErrosVeiculoVaziosSeValido(dto);
  }

  // ---- Handlers -----------------------------------------------------------------

  /** The Location a vehicle creation reports: "/veiculo/{id}". */
  function LocalDoVeiculo(id: int): Local
  {
    Local("veiculo", id)
  }

  /** The reported Location names the singular "veiculo", which no route of the table matches. */
  lemma LocalDoVeiculoSemRota(id: int)
    ensures forall e :: e in Tabela ==> !RotaCasa(e, LocalDoVeiculo(id))
  {
    assert "veiculo" != "veiculos" by { assert |"veiculo"| != |"veiculos"|; }
    assert "veiculo" != "Administradores" by { assert |"veiculo"| != |"Administradores"|; }
  }

  /** POST /veiculos. */
  method PostVeiculos(dto: VeiculoDTO, servico: VeiculoServico) returns (r: Resposta<Veiculo>)
    requires servico.Valid()
    modifies servico
    ensures servico.Valid()
    ensures !DtoValido(dto) ==> r == BadRequest(ErrosVeiculo(dto)) && unchanged(servico)
    ensures DtoValido(dto) ==>
              && r.Created?
              && r.local == LocalDoVeiculo(r.corpo.id)
              && r.corpo == NovoVeiculo(dto).(id := r.corpo.id)
              && r.corpo.id !in old(servico.veiculos)
              && servico.veiculos == old(servico.veiculos)[r.corpo.id := r.corpo]
  {
    var mensagens := ValidaDTO(dto);
    if |mensagens| > 0 {
      return BadRequest(mensagens);
    }
    var salvo := servico.Incluir(NovoVeiculo(dto));
    r := Created(LocalDoVeiculo(salvo.id), salvo);
  }

  /** GET /veiculos/{Id}. */
  method GetVeiculo(id: int, servico: VeiculoServico) returns (r: Resposta<Veiculo>)
    requires servico.Valid()
    ensures r.Ok? || r.NotFound?
    ensures r.NotFound? <==> id !in servico.veiculos
    ensures r.Ok? ==> r.corpo == servico.veiculos[id] && r.corpo.id == id
  {
    var veiculo := servico.BuscaPorId(id);
    if veiculo.None? {
      return NotFound;
    }
    r := Ok(veiculo.value);
  }

  /** PUT /veiculos/{Id}: validation comes before the lookup. */
  method PutVeiculo(id: int, dto: VeiculoDTO, servico: VeiculoServico) returns (r: Resposta<Veiculo>)
    requires servico.Valid()
    modifies servico
    ensures servico.Valid()
    ensures !DtoValido(dto) ==> r == BadRequest(ErrosVeiculo(dto)) && unchanged(servico)
    ensures DtoValido(dto) && id !in old(servico.veiculos) ==> r == NotFound && unchanged(servico)
    ensures DtoValido(dto) && id in old(servico.veiculos) ==>
              && r.Ok?
              && r.corpo == NovoVeiculo(dto).(id := id)
              && servico.veiculos == old(servico.veiculos)[id := r.corpo]
              && servico.proximoId == old(servico.proximoId)
  {
    var mensagens := ValidaDTO(dto);
    if |mensagens| > 0 {
      return BadRequest(mensagens);
    }
    var veiculo := servico.BuscaPorId(id);
    if veiculo.None? {
      return NotFound;
    }
    var atualizado := veiculo.value.(nome := dto.nome.value, marca := dto.marca.value, ano := dto.ano);
    servico.Atualizar(atualizado);
    r := Ok(atualizado);
  }

  /** DELETE /veiculos/{Id}. */
  method DeleteVeiculo(id: int, servico: VeiculoServico) returns (r: Resposta<Veiculo>)
    requires servico.Valid()
    modifies servico
    ensures servico.Valid()
    ensures id !in old(servico.veiculos) ==> r == NotFound && unchanged(servico)
    ensures id in old(servico.veiculos) ==>
              && r == NoContent
              && servico.veiculos == old(servico.veiculos) - {id}
              && servico.proximoId == old(servico.proximoId)
  {
    var veiculo := servico.BuscaPorId(id);
    if veiculo.None? {
      return NotFound;
    }
    servico.Apagar(veiculo.value);
    r := NoContent;
  }

  /** A vehicle created by POST is found by GET under the returned id with the payload's fields. */
  method CriarEBuscar(dto: VeiculoDTO, servico: VeiculoServico) returns (criado: Resposta<Veiculo>, buscado: Resposta<Veiculo>)
    requires servico.Valid()
    modifies servico
    ensures DtoValido(dto) ==> criado.Created? && buscado == Ok(criado.corpo)
    ensures DtoValido(dto) ==> && buscado.corpo.nome == dto.nome.value
                               && buscado.corpo.marca == dto.marca.value
                               && buscado.corpo.ano == dto.ano
    ensures !DtoValido(dto) ==> criado.BadRequest? && unchanged(servico)
  {
    criado := PostVeiculos(dto, servico);
    if criado.Created? {
      buscado := GetVeiculo(criado.corpo.id, servico);
    } else {
      buscado := NotFound;
    }
  }
}
