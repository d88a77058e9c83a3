/** The account operations of desafio.java on values: the balance and the log
    of one account, and what each guarded operation makes of them. The class
    `Contas.Conta` is proved against these functions. */
module Operacoes {
  import opened Dominio

  /** The mutable part of an account: `saldo` and `historico`. */
  datatype EstadoConta = EstadoConta(saldo: real, historico: seq<Transacao>)

  /** A fresh account: balance 0.0 and an empty log. */
  const Inicial := EstadoConta(0.0, [])

  /** The change in balance that a log entry stands for. A PIX entry stands
      for none: the withdrawal logged just before it already debited. */
  function Efeito(t: Transacao): real {
    match t.tipo
    case Deposito => t.valor
    case Saque => -t.valor
    case TransferenciaPix(_) => 0.0
    case Investimento(_) => -t.valor
  }

  /** The balance that replaying a log from zero gives. */
  function SaldoRegistrado(h: seq<Transacao>): real {
    if h == [] then 0.0 else Efeito(h[0]) + SaldoRegistrado(h[1..])
  }

  /** The balance agrees with its log. */
  ghost predicate Coerente(e: EstadoConta) {
    e.saldo == SaldoRegistrado(e.historico)
  }

  lemma {:induction false} SaldoRegistradoConcat(a: seq<Transacao>, b: seq<Transacao>)
    ensures SaldoRegistrado(a + b) == SaldoRegistrado(a) + SaldoRegistrado(b)
  {
    if a == [] {
      assert a + b == b;
    } else {
      assert (a + b)[0] == a[0];
      assert (a + b)[1..] == a[1..] + b;
      SaldoRegistradoConcat(a[1..], b);
    }
  }

  lemma SaldoRegistradoAnexar(h: seq<Transacao>, t: Transacao)
    ensures SaldoRegistrado(h + [t]) == SaldoRegistrado(h) + Efeito(t)
  {
    SaldoRegistradoConcat(h, [t]);
    assert [t][1..] == [];
  }

  /** Appends one entry to the log and leaves the balance alone. */
  function Registrar(e: EstadoConta, t: Transacao): EstadoConta {
    EstadoConta(e.saldo, e.historico + [t])
  }

  /** `Conta.depositar` (desafio.java:45-48): unconditional, any amount. */
  function Depositar(e: EstadoConta, valor: real): (r: EstadoConta)
    ensures r.saldo == e.saldo + valor
    ensures e.historico <= r.historico
    ensures r.historico[|e.historico|..] == [Transacao(Deposito, valor)]
    ensures Coerente(e) ==> Coerente(r)
  {
    SaldoRegistradoAnexar(e.historico, Transacao(Deposito, valor));
    EstadoConta(e.saldo + valor, e.historico + [Transacao(Deposito, valor)])
  }

  /** `Conta.sacar` (desafio.java:50-57): applies only when `valor <= saldo`. */
  function Sacar(e: EstadoConta, valor: real): (r: (Resultado, EstadoConta))
    ensures r.0 == Sucesso <==> valor <= e.saldo
    ensures r.0 == Sucesso ==> r.1.saldo == e.saldo - valor && r.1.saldo >= 0.0
    ensures r.0 == Sucesso ==> r.1.historico == e.historico + [Transacao(Saque, valor)]
    ensures r.0 == SaldoInsuficiente ==> r.1 == e
    ensures e.historico <= r.1.historico
    ensures Coerente(e) ==> Coerente(r.1)
  {
    SaldoRegistradoAnexar(e.historico, Transacao(Saque, valor));
    if valor <= e.saldo then
      (Sucesso, EstadoConta(e.saldo - valor, e.historico + [Transacao(Saque, valor)]))
    else
      (SaldoInsuficiente, e)
  }

  /** `ContaCorrente.aplicarInvestimento` (desafio.java:78-85): a guarded
      debit; nothing is credited anywhere. */
  function AplicarInvestimento(e: EstadoConta, tipo: TipoInvestimento, valor: real): (r: (Resultado, EstadoConta))
    ensures r.0 == Sucesso <==> valor <= e.saldo
    ensures r.0 == Sucesso ==> r.1.saldo == e.saldo - valor && r.1.saldo >= 0.0
    ensures r.0 == Sucesso ==> r.1.historico == e.historico + [Transacao(Investimento(tipo), valor)]
    ensures r.0 == SaldoInsuficiente ==> r.1 == e
    ensures e.historico <= r.1.historico
    ensures Coerente(e) ==> Coerente(r.1)
  {
    SaldoRegistradoAnexar(e.historico, Transacao(Investimento(tipo), valor));
    if valor <= e.saldo then
      (Sucesso, EstadoConta(e.saldo - valor, e.historico + [Transacao(Investimento(tipo), valor)]))
    else
      (SaldoInsuficiente, e)
  }

  /** `Conta.transferir` (desafio.java:59-67) between two distinct accounts:
      withdraw from the source, deposit on the target, then log the PIX
      entry on the source. `numeroDestino` is the target's number. */
  function Transferir(origem: EstadoConta, destino: EstadoConta, numeroDestino: string, valor: real)
    : (r: (Resultado, EstadoConta, EstadoConta))
    ensures r.0 == Sucesso <==> valor <= origem.saldo
    ensures valor <= origem.saldo ==> Sacar(origem, valor).0 == Sucesso
    ensures r.1.saldo + r.2.saldo == origem.saldo + destino.saldo
    ensures r.0 == Sucesso ==>
              && r.1.saldo == origem.saldo - valor && r.1.saldo >= 0.0
              && r.2.saldo == destino.saldo + valor
              && r.1.historico == origem.historico + [Transacao(Saque, valor), Transacao(TransferenciaPix(numeroDestino), valor)]
              && r.2.historico == destino.historico + [Transacao(Deposito, valor)]
    ensures r.0 == SaldoInsuficiente ==> r.1 == origem && r.2 == destino
    ensures r.0 == Sucesso ==> r.2 == Depositar(destino, valor)
    ensures origem.historico <= r.1.historico && destino.historico <= r.2.historico
    ensures Coerente(origem) ==> Coerente(r.1)
    ensures Coerente(destino) ==> Coerente(r.2)
  {
    if valor <= origem.saldo then
      var saque := Sacar(origem, valor);
      // the inner withdrawal rechecks the same guard on the same balance
      assert saque.0 == Sucesso;
      var destino' := Depositar(destino, valor);
      var pix := Transacao(TransferenciaPix(numeroDestino), valor);
      SaldoRegistradoAnexar(saque.1.historico, pix);
      (Sucesso, Registrar(saque.1, pix), destino')
    else
      (SaldoInsuficiente, origem, destino)
  }

  /** `Conta.transferir` called with `destino == this` (desafio.java:59-63):
      the withdrawal, the deposit and the PIX entry all land on one account. */
  function TransferirParaSi(e: EstadoConta, numero: string, valor: real): (r: (Resultado, EstadoConta))
    ensures r.0 == Sucesso <==> valor <= e.saldo
    ensures valor <= e.saldo ==> Sacar(e, valor).0 == Sucesso
    ensures r.1.saldo == e.saldo
    ensures r.0 == Sucesso ==>
              r.1.historico == e.historico + [Transacao(Saque, valor), Transacao(Deposito, valor), Transacao(TransferenciaPix(numero), valor)]
    ensures r.0 == SaldoInsuficiente ==> r.1 == e
    ensures e.historico <= r.1.historico
    ensures Coerente(e) ==> Coerente(r.1)
  {
    if valor <= e.saldo then
      var saque := Sacar(e, valor);
      assert saque.0 == Sucesso;
      var deposito := Depositar(saque.1, valor);
      var pix := Transacao(TransferenciaPix(numero), valor);
      SaldoRegistradoAnexar(deposito.historico, pix);
      (Sucesso, Registrar(deposito, pix))
    else
      (SaldoInsuficiente, e)
  }

  /** One call on an account, as seen from that account. A transfer to
      another account names that account's state and number; a PIX received
      from another account is, on this side, exactly a deposit (see the
      ensures of `Transferir`). */
  datatype Operacao =
    | OpDepositar(valor: real)
    | OpSacar(valor: real)
    | OpInvestir(tipo: TipoInvestimento, valor: real)
    | OpTransferir(destino: EstadoConta, numeroDestino: string, valor: real)
    | OpTransferirParaSi(numero: string, valor: real)

  function Aplicar(e: EstadoConta, op: Operacao): EstadoConta {
    match op
    case OpDepositar(v) => Depositar(e, v)
    case OpSacar(v) => Sacar(e, v).1
    case OpInvestir(t, v) => AplicarInvestimento(e, t, v).1
    case OpTransferir(d, n, v) => Transferir(e, d, n, v).1
    case OpTransferirParaSi(n, v) => TransferirParaSi(e, n, v).1
  }

  function Executar(e: EstadoConta, ops: seq<Operacao>): EstadoConta
    decreases |ops|
  {
    if ops == [] then e else Executar(Aplicar(e, ops[0]), ops[1..])
  }

  /** Deposits, which include a PIX received from another account, are the
      only calls that can take a non-negative balance below zero, and only
      with a negative amount. */
  ghost predicate CreditosNaoNegativos(ops: seq<Operacao>) {
    forall i :: 0 <= i < |ops| && ops[i].OpDepositar? ==> ops[i].valor >= 0.0
  }

  /** Every sequence of calls keeps the balance equal to the replay of the log. */
  lemma {:induction false} ExecutarCoerente(e: EstadoConta, ops: seq<Operacao>)
    requires Coerente(e)
    ensures Coerente(Executar(e, ops))
    decreases |ops|
  {
    if ops != [] {
      ExecutarCoerente(Aplicar(e, ops[0]), ops[1..]);
    }
  }

  /** From a fresh account, the balance is always what the log adds up to. */
  lemma SaldoDeContaNovaEhRegistrado(ops: seq<Operacao>)
    ensures Executar(Inicial, ops).saldo == SaldoRegistrado(Executar(Inicial, ops).historico)
  {
    ExecutarCoerente(Inicial, ops);
  }

  /** The log is append-only: the old log is a prefix of the new one. */
  lemma {:induction false} ExecutarEstendeHistorico(e: EstadoConta, ops: seq<Operacao>)
    ensures e.historico <= Executar(e, ops).historico
    decreases |ops|
  {
    if ops != [] {
      var e' := Aplicar(e, ops[0]);
      ExecutarEstendeHistorico(e', ops[1..]);
    }
  }

  /** With no negative deposit, a non-negative balance stays non-negative. */
  lemma {:induction false} ExecutarSolvente(e: EstadoConta, ops: seq<Operacao>)
    requires e.saldo >= 0.0
    requires CreditosNaoNegativos(ops)
    ensures Executar(e, ops).saldo >= 0.0
    decreases |ops|
  {
    if ops != [] {
      assert ops[0].OpDepositar? ==> ops[0].valor >= 0.0;
      assert CreditosNaoNegativos(ops[1..]) by {
        forall i | 0 <= i < |ops[1..]| && ops[1..][i].OpDepositar?
          ensures ops[1..][i].valor >= 0.0
        {
          assert ops[1..][i] == ops[i + 1];
        }
      }
      ExecutarSolvente(Aplicar(e, ops[0]), ops[1..]);
    }
  }

  /** Without that restriction the balance can go negative: a deposit of a
      negative amount is accepted. */
  lemma DepositoNegativoDeixaSaldoNegativo()
    ensures Executar(Inicial, [OpDepositar(-1.0)]).saldo < 0.0
  {
  }
}
