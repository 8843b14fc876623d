/**
  The persistence services the handlers receive, as in-memory stores keyed by id.
  The store assigns each inserted record a fresh identity key, as the database's
  identity column does.
*/
module Servicos {
  import opened Wrappers
  import opened Entidades
  import opened Dominio

  class VeiculoServico {
    var veiculos: map<int, Veiculo>
    /** The next identity value the store hands out. */
    var proximoId: int

    /** Keys are positive, below the next identity value, and equal to their record's id. */
    ghost predicate Valid()
      reads this
    {
      && proximoId >= 1
      && forall id :: id in veiculos ==> 1 <= id < proximoId && veiculos[id].id == id
    }

    constructor ()
      ensures Valid() && veiculos == map[]
    {
      veiculos := map[];
      proximoId := 1;
    }

    /** `BuscaPorId`: the record stored under `id`, or null. */
    method BuscaPorId(id: int) returns (r: Option<Veiculo>)
      requires Valid()
      ensures r.Some? <==> id in veiculos
      ensures r.Some? ==> r.value == veiculos[id] && r.value.id == id
    {
      r := if id in veiculos then Some(veiculos[id]) else None;
    }

    /**
      `Incluir`: stores the record under the next identity value, which becomes its id.
      The identity value only grows, so no key is ever handed out twice, even after a delete.
    */
    method Incluir(v: Veiculo) returns (salvo: Veiculo)
      requires Valid()
      modifies this
      ensures Valid()
      ensures salvo == v.(id := salvo.id)
      ensures salvo.id == old(proximoId) && proximoId == old(proximoId) + 1
      ensures salvo.id !in old(veiculos)
      ensures veiculos == old(veiculos)[salvo.id := salvo]
    {
      salvo := v.(id := proximoId);
      veiculos := veiculos[proximoId := salvo];
      proximoId := proximoId + 1;
    }

    /** `Atualizar`: writes the record back under its own key. */
    method Atualizar(v: Veiculo)
      requires Valid() && v.id in veiculos
      modifies this
      ensures Valid()
      ensures veiculos == old(veiculos)[v.id := v] && proximoId == old(proximoId)
    {
      veiculos := veiculos[v.id := v];
    }

    /** `Apagar`: removes the record's key. */
    method Apagar(v: Veiculo)
      requires Valid() && v.id in veiculos
      modifies this
      ensures Valid()
      ensures veiculos == old(veiculos) - {v.id} && proximoId == old(proximoId)
    {
      veiculos := veiculos - {v.id};
    }
  }

  class AdministradorServico {
    var administradores: map<int, Administrador>
    /** The next identity value the store hands out. */
    var proximoId: int

    /** Keys are positive, below the next identity value, and equal to their record's id. */
    ghost predicate Valid()
      reads this
    {
      && proximoId >= 1
      && forall id :: id in administradores ==> 1 <= id < proximoId && administradores[id].id == id
    }

    constructor ()
      ensures Valid() && administradores == map[]
    {
      administradores := map[];
      proximoId := 1;
    }

    /** `BuscaPorId`: the administrator stored under `id`, or null. */
    method BuscaPorId(id: int) returns (r: Option<Administrador>)
      requires Valid()
      ensures r.Some? <==> id in administradores
      ensures r.Some? ==> r.value == administradores[id] && r.value.id == id
    {
      r := if id in administradores then Some(administradores[id]) else None;
    }

    /**
      `Incluir`: stores the administrator under the next identity value, which becomes its id.
      The identity value only grows, so no key is ever handed out twice.
    */
    method Incluir(a: Administrador) returns (salvo: Administrador)
      requires Valid()
      modifies this
      ensures Valid()
      ensures salvo == a.(id := salvo.id)
      ensures salvo.id == old(proximoId) && proximoId == old(proximoId) + 1
      ensures salvo.id !in old(administradores)
      ensures administradores == old(administradores)[salvo.id := salvo]
    {
      salvo := a.(id := proximoId);
      administradores := administradores[proximoId := salvo];
      proximoId := proximoId + 1;
    }
  }
}
