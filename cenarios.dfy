/** Clients of the model that walk through the usual sessions: what a caller
    can conclude from the contracts alone. */
module Cenarios {
  import opened Dominio
  import Contas
  import Repositorio

  method RegistroDeContas() {
    var repo := new Repositorio.ContaRepository();
    var ana := new Contas.Conta("001", Cliente("Ana", "111"));
    var bia := new Contas.Conta("002", Cliente("Bia", "222"));
    repo.Salvar(ana);
    repo.Salvar(bia);
    assert repo.Buscar("001") == ana && repo.Buscar("002") == bia;
    assert repo.Buscar("003") == null;
    // saving a second account under "001" replaces the first one
    var outra := new Contas.Conta("001", Cliente("Caio", "333"));
    repo.Salvar(outra);
    assert repo.Buscar("001") == outra && repo.Buscar("002") == bia;
  }

  method DepositoETransferencia() {
    var ana := new Contas.Conta("001", Cliente("Ana", "111"));
    var bia := new Contas.Conta("002", Cliente("Bia", "222"));
    ana.Depositar(100.0);
    assert ana.saldo == 100.0;
    assert ana.historico == [Transacao(Deposito, 100.0)];
    var r := ana.Transferir(bia, 40.0);
    assert r == Sucesso;
    assert ana.saldo == 60.0 && bia.saldo == 40.0;
    assert ana.historico == [Transacao(Deposito, 100.0), Transacao(Saque, 40.0),
                             Transacao(TransferenciaPix("002"), 40.0)];
    assert bia.historico == [Transacao(Deposito, 40.0)];
  }

  method SaqueRecusado() {
    var bia := new Contas.Conta("002", Cliente("Bia", "222"));
    bia.Depositar(50.0);
    var r := bia.Sacar(80.0);
    assert r == SaldoInsuficiente;
    assert bia.saldo == 50.0 && bia.historico == [Transacao(Deposito, 50.0)];
  }

  method InvestimentoAteZerar() {
    var bia := new Contas.Conta("002", Cliente("Bia", "222"));
    bia.Depositar(30.0);
    var r := bia.AplicarInvestimento(RendaFixa, 30.0);
    assert r == Sucesso && bia.saldo == 0.0;
    assert bia.historico == [Transacao(Deposito, 30.0), Transacao(Investimento(RendaFixa), 30.0)];
    r := bia.AplicarInvestimento(RendaFixa, 1.0);
    assert r == SaldoInsuficiente && bia.saldo == 0.0;
  }

  method TransferenciaParaSiMesma() {
    var ana := new Contas.Conta("001", Cliente("Ana", "111"));
    ana.Depositar(60.0);
    var r := ana.Transferir(ana, 10.0);
    assert r == Sucesso && ana.saldo == 60.0;
    assert ana.historico == [Transacao(Deposito, 60.0), Transacao(Saque, 10.0),
                             Transacao(Deposito, 10.0), Transacao(TransferenciaPix("001"), 10.0)];
  }
}
