/** Plain data of the ledger: customers, investment kinds, log entries and
    the outcome of a guarded operation. None of these has behaviour. */
module Dominio {

  /** Identity data of an account holder (desafio.java `Cliente`). */
  datatype Cliente = Cliente(nome: string, cpf: string)

  /** The two investment kinds (desafio.java `TipoInvestimento`). */
  datatype TipoInvestimento = RendaFixa | RendaVariavel

  /** The label of a log entry. The source builds a string
      ("Depósito", "Saque", "Transferência PIX para <numero>",
      "Investimento em <tipo>"); here each label is a constructor. */
  datatype TipoTransacao =
    | Deposito
    | Saque
    | TransferenciaPix(destino: string)
    | Investimento(tipo: TipoInvestimento)

  /** One entry of an account's log (desafio.java `Transacao`), without its
      timestamp. */
  datatype Transacao = Transacao(tipo: TipoTransacao, valor: real)

  /** What a guarded operation reports instead of printing a message. */
  datatype Resultado = Sucesso | SaldoInsuficiente
}
