/**
  The message-accumulating discipline both payload validators follow: each check,
  in a fixed order, adds its one message to the list when it fails, and an empty
  list means the payload is accepted.
*/
module Validacao {
  import opened Wrappers

  /** One check of a payload: whether it failed and the message it reports then. */
  datatype Regra = Regra(falhou: bool, mensagem: string)

  /** `string.IsNullOrEmpty`. */
  predicate NuloOuVazio(s: Option<string>)
    ensures NuloOuVazio(s) <==> s == None || s == Some("")
  {
    s.None? || s.value == ""
  }

  /** The messages of the failed checks, in check order. */
  function Coletar(regras: seq<Regra>): (mensagens: seq<string>)
    ensures |mensagens| <= |regras|
  {
    if regras == [] then []
    else (if regras[0].falhou then [regras[0].mensagem] else []) + Coletar(regras[1..])
  }

  /** No message is reported exactly when every check passes. */
  lemma {:induction false} ColetarVazio(regras: seq<Regra>)
    ensures Coletar(regras) == [] <==> forall i :: 0 <= i < |regras| ==> !regras[i].falhou
  {
    if regras != [] {
      ColetarVazio(regras[1..]);
      assert forall i :: 1 <= i < |regras| ==> regras[i] == regras[1..][i - 1];
    }
  }

  /** Checks run later report after checks run earlier. */
  lemma {:induction false} ColetarConcatena(a: seq<Regra>, b: seq<Regra>)
    ensures Coletar(a + b) == Coletar(a) + Coletar(b)
  {
    if a == [] {
      assert a + b == b;
    } else {
      var primeira := if a[0].falhou then [a[0].mensagem] else [];
      assert (a + b)[0] == a[0] && (a + b)[1..] == a[1..] + b;
      assert Coletar(a + b) == primeira + Coletar(a[1..] + b);
      ColetarConcatena(a[1..], b);
      assert Coletar(a) == primeira + Coletar(a[1..]);
    }
  }

  /** A message is reported exactly when some check carrying it failed. */
  lemma {:induction false} ColetarContem(regras: seq<Regra>, m: string)
    ensures m in Coletar(regras) <==>
            exists i :: 0 <= i < |regras| && regras[i].falhou && regras[i].mensagem == m
  {
    if regras != [] {
      ColetarContem(regras[1..], m);
      if exists i :: 0 <= i < |regras| && regras[i].falhou && regras[i].mensagem == m {
        var i :| 0 <= i < |regras| && regras[i].falhou && regras[i].mensagem == m;
        if i > 0 {
          assert regras[1..][i - 1] == regras[i];
        }
      }
    }
  }
}
