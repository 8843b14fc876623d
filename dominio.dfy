/**
  The domain types that Program.cs uses besides `Veiculo`: the profile enumeration, the
  administrator entity, the request payloads (DTOs) and the administrator projection.
  Their declaring files are not part of this model; their fields are the ones Program.cs
  reads and writes.
*/
module Dominio {
  import opened Wrappers

  /** The administrator profile enumeration (`Perfil.Adm`, `Perfil.Editor`). */
  datatype Perfil = Adm | Editor

  /** The name an enumeration member prints as (C# `Enum.ToString()`). */
  function NomePerfil(p: Perfil): string
  {
    match p
    case Adm => "Adm"
    case Editor => "Editor"
  }

  /** A stored administrator; `perfil` is kept as the profile's printed name. */
  datatype Administrador = Administrador(id: int, email: string, senha: string, perfil: string)

  /** Body of POST /Administradores; any field may be absent (null) after JSON binding. */
  datatype AdministradorDTO = AdministradorDTO(email: Option<string>, senha: Option<string>, perfil: Option<Perfil>)

  /** What the administrator endpoints return: the record without its password. */
  datatype AdministradorModelView = AdministradorModelView(id: int, email: string, perfil: string)

  /** Body of POST and PUT /veiculos; the strings may be absent (null) after JSON binding. */
  datatype VeiculoDTO = VeiculoDTO(nome: Option<string>, marca: Option<string>, ano: int)

  /** `new AdministradorModelView { Id = a.Id, Email = a.Email, Perfil = a.Perfil }`. */
  function Projetar(a: Administrador): (v: AdministradorModelView)
    ensures v.id == a.id && v.email == a.email && v.perfil == a.perfil
  {
    AdministradorModelView(a.id, a.email, a.perfil)
  }

  /** The projection loses the password and nothing else. */
  lemma ProjecaoPerdeSoASenha(a: Administrador, b: Administrador)
    ensures Projetar(a) == Projetar(b) <==> a.(senha := b.senha) == b
  {
  }

  /** Distinct profiles print differently, so the printed name identifies the profile. */
  lemma NomePerfilInjetivo(p: Perfil, q: Perfil)
    ensures NomePerfil(p) == NomePerfil(q) <==> p == q
  {
    if p != q {
      assert NomePerfil(p)[0] != NomePerfil(q)[0];
    }
  }
}
