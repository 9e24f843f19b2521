/**
 * What the system, token and associated-token programs do with the
 * instructions the forms assemble, reduced to the accounts they create and
 * the balances they move. A transaction is atomic: if one instruction is
 * rejected, none of them takes effect. This is the yardstick against which
 * the assembled sequences are checked; it is not itself part of the
 * dashboard, which leaves execution to the chain.
 */
module Ledger {
  import opened Wrappers
  import opened Solana

  predicate IsTokenProgram(p: Program)
  {
    p == TokenProgram || p == Token2022Program
  }

  /** The state after one instruction, or None when its program rejects it. */
  function Step(crypto: Crypto, st: State, ix: Instruction): Option<State>
  {
    match ix
    case CreateAccount(_, account, _, space, program) =>
      if account in st then None else Some(st[account := Allocated(space, program)])
    case InitializeMint(mint, decimals, authority, _, program) =>
      if IsTokenProgram(program) && mint in st && st[mint] == Allocated(MintSize, program) && 0 <= decimals < 256
      then Some(st[mint := Mint(decimals, Some(authority), 0, program)])
      else None
    case CreateAssociatedTokenAccount(_, ata, owner, mint, program, atp) =>
      if atp == AssociatedTokenProgram && ata == crypto.associatedAddress(mint, owner, program) && ata !in st
         && mint in st && st[mint].Mint? && st[mint].program == program
      then Some(st[ata := TokenAccount(mint, owner, 0, program)])
      else None
    case MintTo(mint, destination, authority, amount, program) =>
      if mint in st && st[mint].Mint? && st[mint].program == program && st[mint].authority == Some(authority)
         && destination in st && st[destination].TokenAccount? && st[destination].mint == mint
         && st[destination].program == program && amount >= 0
      then Some(st[mint := st[mint].(supply := st[mint].supply + amount)]
                  [destination := st[destination].(balance := st[destination].balance + amount)])
      else None
    case Transfer(source, destination, owner, amount, _, program) =>
      if source in st && destination in st && st[source].TokenAccount? && st[destination].TokenAccount?
         && st[source].program == program && st[destination].program == program
         && st[source].holder == owner && st[source].mint == st[destination].mint
         && 0 <= amount <= st[source].balance
      then
        if source == destination then Some(st)
        else Some(st[source := st[source].(balance := st[source].balance - amount)]
                    [destination := st[destination].(balance := st[destination].balance + amount)])
      else None
  }

  /** All the instructions of one transaction, in order; None if any is rejected. */
  function Execute(crypto: Crypto, st: State, ixs: seq<Instruction>): Option<State>
    decreases |ixs|
  {
    if ixs == [] then Some(st)
    else match Step(crypto, st, ixs[0])
      case None => None
      case Some(next) => Execute(crypto, next, ixs[1..])
  }
}
