/** The account objects of desafio.java. `Conta` is abstract there and
    `ContaCorrente` is its only subclass; here they are one class, whose
    `AplicarInvestimento` is the checking-account version. */
module Contas {
  import opened Dominio
  import Operacoes

  /** Each method below is the in-place form of the `Operacoes` function of
      the same name, and is proved to produce exactly its result. */
  class Conta {
    /** Assigned only by the constructor in the source, so constant here. */
    const numero: string
    const titular: Cliente
    var saldo: real
    var historico: seq<Transacao>

    /** The object invariant: the balance is what the log adds up to. */
    ghost predicate Valid()
      reads this
    {
      Operacoes.Coerente(Estado())
    }

    function Estado(): Operacoes.EstadoConta
      reads this
    {
      Operacoes.EstadoConta(saldo, historico)
    }

    /** `new ContaCorrente(numero, titular)` (desafio.java:34-38, 73-75). */
    constructor (numero: string, titular: Cliente)
      ensures Valid()
      ensures this.numero == numero && this.titular == titular
      ensures Estado() == Operacoes.Inicial
    {
      this.numero := numero;
      this.titular := titular;
      saldo := 0.0;
      historico := [];
    }

    /** desafio.java:45-48: always applies, whatever the sign of `valor`. */
    method Depositar(valor: real)
      requires Valid()
      modifies this
      ensures Valid()
      ensures Estado() == Operacoes.Depositar(old(Estado()), valor)
    {
      Operacoes.SaldoRegistradoAnexar(historico, Transacao(Deposito, valor));
      saldo := saldo + valor;
      historico := historico + [Transacao(Deposito, valor)];
    }

    /** desafio.java:50-57: the failure is reported instead of printed. */
    method Sacar(valor: real) returns (r: Resultado)
      requires Valid()
      modifies this
      ensures Valid()
      ensures r == Sucesso <==> old(valor <= saldo)
      ensures (r, Estado()) == Operacoes.Sacar(old(Estado()), valor)
    {
      if valor <= saldo {
        Operacoes.SaldoRegistradoAnexar(historico, Transacao(Saque, valor));
        saldo := saldo - valor;
        historico := historico + [Transacao(Saque, valor)];
        r := Sucesso;
      } else {
        r := SaldoInsuficiente;
      }
    }

    /** desafio.java:59-67. The second account may be this one; then the
        withdrawal, the deposit and the PIX entry all land here. */
    method Transferir(destino: Conta, valor: real) returns (r: Resultado)
      requires Valid() && destino.Valid()
      modifies this, destino
      ensures Valid() && destino.Valid()
      ensures r == Sucesso <==> old(valor <= saldo)
      ensures destino != this ==>
                (r, Estado(), destino.Estado())
                == Operacoes.Transferir(old(Estado()), old(destino.Estado()), destino.numero, valor)
      ensures destino == this ==>
                (r, Estado()) == Operacoes.TransferirParaSi(old(Estado()), numero, valor)
    {
      if valor <= saldo {
        var saque := Sacar(valor);
        assert saque == Sucesso;
        destino.Depositar(valor);
        var pix := Transacao(TransferenciaPix(destino.numero), valor);
        Operacoes.SaldoRegistradoAnexar(historico, pix);
        historico := historico + [pix];
        r := Sucesso;
      } else {
        r := SaldoInsuficiente;
      }
    }

    /** `ContaCorrente.aplicarInvestimento` (desafio.java:78-85): a guarded
        debit, credited to no other account. */
    method AplicarInvestimento(tipo: TipoInvestimento, valor: real) returns (r: Resultado)
      requires Valid()
      modifies this
      ensures Valid()
      ensures r == Sucesso <==> old(valor <= saldo)
      ensures (r, Estado()) == Operacoes.AplicarInvestimento(old(Estado()), tipo, valor)
    {
      if valor <= saldo {
        Operacoes.SaldoRegistradoAnexar(historico, Transacao(Investimento(tipo), valor));
        saldo := saldo - valor;
        historico := historico + [Transacao(Investimento(tipo), valor)];
        r := Sucesso;
      } else {
        r := SaldoInsuficiente;
      }
    }
  }
}
