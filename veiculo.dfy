/**
  The vehicle entity and the constraints its data annotations declare:
  `Id` is an identity key generated by the store, `Nome` and `Marca` are required
  strings of at most 155 and 100 characters, `Ano` is a required integer.
*/
module Entidades {

  const ComprimentoMaximoNome: nat := 155
  const ComprimentoMaximoMarca: nat := 100

  datatype Veiculo = Veiculo(id: int, nome: string, marca: string, ano: int)

  /** The characters .NET's `char.IsWhiteSpace` accepts. */
  predicate EspacoEmBranco(c: char)
  {
    || ('\t' <= c <= '\r')
    || c == ' '
    || c == '\U{85}'
    || c == '\U{A0}'
    || c == '\U{1680}'
    || ('\U{2000}' <= c <= '\U{200A}')
    || c == '\U{2028}'
    || c == '\U{2029}'
    || c == '\U{202F}'
    || c == '\U{205F}'
    || c == '\U{3000}'
  }

  /** `[Required]` on a string: not null and not made only of white space. */
  predicate Preenchido(s: string)
  {
    exists i :: 0 <= i < |s| && !EspacoEmBranco(s[i])
  }

  /** Every constraint the annotations of `Veiculo` declare. */
  predicate VeiculoValido(v: Veiculo)
    ensures VeiculoValido(v) ==> v.nome != "" && v.marca != ""
  {
    && Preenchido(v.nome) && |v.nome| <= ComprimentoMaximoNome
    && Preenchido(v.marca) && |v.marca| <= ComprimentoMaximoMarca
  }
}
