/** `ContaRepository` (desafio.java:88-102): accounts keyed by number. */
module Repositorio {
  import Contas

  class ContaRepository {
    var contas: map<string, Contas.Conta>

    /** Every account is stored under its own number, which `salvar`
        guarantees since it keys by `conta.getNumero()`. */
    ghost predicate Valid()
      reads this
    {
      forall k :: k in contas ==> contas[k].numero == k
    }

    constructor ()
      ensures Valid()
      ensures forall k :: Buscar(k) == null
    {
      contas := map[];
    }

    /** desafio.java:91-93: inserts, or silently replaces the account stored
        under the same number. */
    method Salvar(conta: Contas.Conta)
      requires Valid()
      modifies this
      ensures Valid()
      ensures contas == old(contas)[conta.numero := conta]
      ensures Buscar(conta.numero) == conta
      ensures forall k :: k != conta.numero ==> Buscar(k) == old(Buscar(k))
      ensures contas.Keys == old(contas.Keys) + {conta.numero}
    {
      contas := contas[conta.numero := conta];
    }

    /** desafio.java:95-97: `null` for a number under which nothing was
        saved. */
    function Buscar(numero: string): (r: Contas.Conta?)
      reads this
      ensures r == null <==> numero !in contas
      ensures r != null ==> r == contas[numero]
      ensures Valid() && r != null ==> r.numero == numero
    {
      if numero in contas then contas[numero] else null
    }

    /** desafio.java:99-101: the stored accounts. The source's `HashMap`
        gives them in no particular order, so a set. */
    function ListarTodas(): (r: set<Contas.Conta>)
      reads this
      ensures forall k :: k in contas ==> contas[k] in r
      ensures Valid() ==> forall c :: c in r ==> c.numero in contas && contas[c.numero] == c
    {
      contas.Values
    }

    /** No account is listed twice and none is lost: one per number. */
    lemma ListarTodasUmaPorNumero()
      requires Valid()
      ensures |ListarTodas()| == |contas|
    {
      UmaContaPorChave(contas);
    }
  }

  lemma {:induction false} UmaContaPorChave(m: map<string, Contas.Conta>)
    requires forall k :: k in m ==> m[k].numero == k
    ensures |m.Values| == |m.Keys|
    decreases |m.Keys|
  {
    if m.Keys != {} {
      var k :| k in m.Keys;
      var m' := m - {k};
      assert m'.Keys == m.Keys - {k};
      assert m'.Values == m.Values - {m[k]} by {
        forall c | c in m.Values
          ensures c in m'.Values <==> c != m[k]
        {
          var j :| j in m && m[j] == c;
          if c != m[k] {
            assert j != k && j in m' && m'[j] == c;
          }
        }
        forall c | c in m'.Values
          ensures c in m.Values
        {
          var j :| j in m' && m'[j] == c;
          assert m[j] == c;
        }
      }
      UmaContaPorChave(m');
    }
  }
}
