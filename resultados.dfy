/** The HTTP results the handlers return (`Results.Ok`, `Results.Created`, …). */
module Resultados {

  /** A Location header "/colecao/id". */
  datatype Local = Local(colecao: string, id: int)

  datatype Resposta<T> =
    | Ok(corpo: T)
    | Created(local: Local, corpo: T)
    | NoContent
    | NotFound
    | Unauthorized
    | BadRequest(mensagens: seq<string>)
}
