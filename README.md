# Bank ledger model (Sistema Bancário)

A Dafny model of the account ledger in `desafio.java`: accounts that hold a
balance (`saldo`) and an append-only transaction log (`historico`), the
guarded operations on them (deposit, withdrawal, PIX transfer, investment),
and the repository that keys accounts by number.

Files and modules:

- `dominio.dfy` (`Dominio`): the plain data. `Cliente`, `TipoInvestimento`,
  the log entry `Transacao(tipo, valor)` whose label is the datatype
  `TipoTransacao` (`Deposito`, `Saque`, `TransferenciaPix(destino)`,
  `Investimento(tipo)`), and `Resultado` (`Sucesso | SaldoInsuficiente`),
  which replaces the "Saldo insuficiente" messages.
- `operacoes.dfy` (`Operacoes`): each operation as a function on
  `EstadoConta(saldo, historico)`, with its contract: when it succeeds
  (exactly when `valor <= saldo`), the exact entries appended, that failure
  changes nothing, that the old log is a prefix of the new one, and that the
  balance stays equal to the replay of the log (`Coerente`). `Executar` runs
  any sequence of calls on one account; lemmas about it give the invariants
  over every sequence.
- `contas.dfy` (`Contas`): the class `Conta`, with `const numero`,
  `const titular` and the mutable fields `saldo` and `historico`. Each
  method updates the fields in place and is proved to produce exactly the
  state the matching `Operacoes` function gives; `Valid()` is the invariant
  "balance equals the replay of the log". `Transferir` calls `Sacar` on
  itself and `Depositar` on the target, as the source does, and is specified
  both for two distinct accounts and for a transfer to itself.
- `repositorio.dfy` (`Repositorio`): `ContaRepository` over a
  `map<string, Conta>`, with map semantics for `Salvar`/`Buscar` and the
  stored accounts as a set for `ListarTodas`.
- `cenarios.dfy` (`Cenarios`): client methods that derive concrete outcomes
  of typical sessions (a deposit, a transfer, a refused withdrawal,
  investing down to zero, a self-transfer, an overwrite in the repository)
  from the contracts alone.

Points where the code does less than one might expect, and what the model
does about them:

- `saldo >= 0` is not an invariant of every account. The code accepts
  a deposit of any amount, negative ones included (desafio.java:45-48).
  A transfer of a negative amount passes its guard on a non-negative source
  and is a negative deposit on the target (desafio.java:60-62), so it can
  take a target at 0.0 below zero. Non-negativity is guaranteed when no
  negative amount is credited, whether by deposit or by an incoming
  transfer: `ExecutarSolvente` proves it under that condition, and
  `DepositoNegativoDeixaSaldoNegativo` shows a balance going negative
  without it. On a non-negative balance, a debit with a negative amount
  always passes its guard and raises the balance, so debits never take a
  non-negative balance below zero; on a negative balance such a debit may
  fail its guard (`-5.0 <= -10.0` is false).
- Nothing checks that a logged amount is non-negative, in the code or in the
  model.
- A transfer logs two entries on the source (`Saque`, then
  `TransferenciaPix`) and one on the target (`Deposito`). The model keeps
  this; in the log replay the PIX entry counts for nothing, since the
  withdrawal before it already debits.
- A transfer to the same account is not excluded by the code. The model
  specifies it (`TransferirParaSi`): the balance is unchanged and the log
  gains `Saque`, `Deposito`, `TransferenciaPix`, in that order.

## Model

| member | source | states |
|---|---|---|
| `Operacoes.Depositar` | desafio.java:45-48 | the balance rises by exactly `valor` (any sign); the log gains exactly one `Deposito` entry of `valor` at its end; the balance stays equal to the log replay |
| `Operacoes.Sacar` | desafio.java:50-57 | succeeds iff `valor <= saldo`; on success the balance falls by `valor`, is non-negative, and exactly one `Saque` entry is appended; on failure balance and log are unchanged; the old log is a prefix of the new |
| `Operacoes.AplicarInvestimento` | desafio.java:78-85 | succeeds iff `valor <= saldo`; on success the balance falls by `valor`, is non-negative, and exactly one `Investimento(tipo)` entry is appended; on failure nothing changes |
| `Operacoes.Transferir` | desafio.java:59-67 | between distinct accounts: succeeds iff `valor <= saldo` of the source; the sum of the two balances is conserved; on success the source log gains `[Saque valor, TransferenciaPix(destino) valor]`, the target's exactly `[Deposito valor]`, and the target ends as a plain deposit of `valor`; on failure both accounts are unchanged; whenever the guard holds, the inner withdrawal takes its success branch |
| `Operacoes.TransferirParaSi` | desafio.java:59-63 | a transfer whose target is the source itself: succeeds iff `valor <= saldo`; the balance is unchanged; on success the log gains `[Saque, Deposito, TransferenciaPix(numero)]`; on failure nothing changes; whenever the guard holds, the inner withdrawal takes its success branch |
| `Operacoes.ExecutarCoerente` | desafio.java:45-85 | every sequence of deposits, withdrawals, investments and transfers keeps the balance equal to the replay of the log |
| `Operacoes.SaldoDeContaNovaEhRegistrado` | desafio.java:34-38 | for an account created with balance 0.0 and an empty log, after any sequence of calls the balance is what its log adds up to |
| `Operacoes.ExecutarEstendeHistorico` | desafio.java:45-85 | the log is append-only: after any sequence of calls the old log is a prefix of the new one |
| `Operacoes.ExecutarSolvente` | desafio.java:45-85 | if the balance is non-negative and no deposit in the sequence has a negative amount, the balance is non-negative after the whole sequence |
| `Operacoes.DepositoNegativoDeixaSaldoNegativo` | desafio.java:45-48 | a deposit of -1.0 on a new account leaves a negative balance: the code has no global `saldo >= 0` invariant |
| `Contas.Conta.constructor` | desafio.java:34-38 | number and holder as given, balance 0.0, empty log |
| `Contas.Conta.Depositar` | desafio.java:45-48 | the fields become exactly `Operacoes.Depositar` of the old state; the invariant is kept |
| `Contas.Conta.Sacar` | desafio.java:50-57 | reports success iff `valor <= saldo` held before; the result and the new fields are exactly `Operacoes.Sacar` of the old state |
| `Contas.Conta.Transferir` | desafio.java:59-67 | reports success iff `valor <= saldo` held before; for a distinct target both accounts become exactly `Operacoes.Transferir` of their old states; for `destino == this` the account becomes `Operacoes.TransferirParaSi` of its old state |
| `Contas.Conta.AplicarInvestimento` | desafio.java:78-85 | reports success iff `valor <= saldo` held before; the result and the new fields are exactly `Operacoes.AplicarInvestimento` of the old state; no other object is modified |
| `Repositorio.ContaRepository.constructor` | desafio.java:89 | the repository starts empty: every lookup gives `null` |
| `Repositorio.ContaRepository.Salvar` | desafio.java:91-93 | afterwards lookup by the account's number gives that account, replacing any earlier one; every other number looks up as before; the key set gains exactly that number |
| `Repositorio.ContaRepository.Buscar` | desafio.java:95-97 | `null` exactly when no account is stored under the number; otherwise the stored account, whose own number is the one asked for |
| `Repositorio.ContaRepository.ListarTodas` | desafio.java:99-101 | every stored account is listed, and every listed account is the one stored under its own number |
| `Repositorio.ContaRepository.ListarTodasUmaPorNumero` | desafio.java:99-101 | the listing has exactly one account per stored number |
| `Repositorio.UmaContaPorChave` | desafio.java:89-93 | a map that keys each account by its own number holds as many distinct accounts as keys |

## Left out

- The interactive menu in `SistemaBancario.main` (desafio.java:105-211):
  console I/O. Its logic (checking `buscar` for `null` before each call, and
  choosing `RENDA_FIXA` for option 1 and `RENDA_VARIAVEL` otherwise) is not
  modelled.
- Timestamps (`LocalDateTime.now()`, desafio.java:24): a clock read; log
  entries carry no timestamp.
- `double` arithmetic: amounts are `real`, so there is no rounding, no NaN
  and no infinity. With rounding, a self-transfer need not leave the balance
  exactly unchanged.
- The console messages on insufficient balance: each guarded method returns
  `Resultado` instead.
- The iteration order of `listarTodas` (a `HashMap`): the result is a set.
- Repositorio.ContaRepository.ListarTodas: `values()` (desafio.java:100)
  is a live view of the map, so a later `salvar` shows up in a collection
  obtained earlier; the model returns a snapshot of the accounts stored at
  the time of the call. Nothing in the program calls `listarTodas`.
- The getters of `Cliente` and `Conta`: the fields are read directly. That
  `getHistorico` hands callers the live, mutable list is not modelled.
- The abstract class `Conta` and its subclass `ContaCorrente` are one class,
  since `ContaCorrente` is the only account kind.
- Contas.Conta.Transferir: `destino` and the argument of `Salvar` are never
  `null` here; the source would throw a `NullPointerException` (for
  `transferir`, after the withdrawal already happened). The menu never
  passes `null`.
