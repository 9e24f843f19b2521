/**
 * The parts of the chain, the token SDK and the wallet adapter that the
 * dashboard's forms talk to, reduced to values: addresses, programs, the
 * five instructions the forms build, the accounts an RPC read can report,
 * the key arithmetic as uninterpreted functions, a `Transaction` object the
 * forms fill in place, and the connected wallet that receives it.
 */
module Solana {
  import opened Wrappers

  /** A public key, held as its base58 text (`toBase58()`). */
  datatype Address = Address(base58: string)

  datatype Program = SystemProgram | TokenProgram | Token2022Program | AssociatedTokenProgram

  /** Bytes of a mint account (`MINT_SIZE` of the token SDK). */
  const MintSize: nat := 82

  /** Whether a value fits the one-byte field the instruction encoder writes it into. */
  predicate FitsByte(v: int)
  {
    0 <= v < 256
  }

  /** The instructions the forms assemble, with the arguments the SDK builders receive. */
  datatype Instruction =
    | CreateAccount(fromPubkey: Address, newAccountPubkey: Address, lamports: nat, space: nat, programId: Program)
    | InitializeMint(mint: Address, decimals: int, mintAuthority: Address, freezeAuthority: Option<Address>, tokenProgram: Program)
    | CreateAssociatedTokenAccount(payer: Address, associatedToken: Address, owner: Address, mint: Address,
                                   tokenProgram: Program, associatedTokenProgram: Program)
    | MintTo(mint: Address, destination: Address, authority: Address, amount: int, tokenProgram: Program)
    | Transfer(source: Address, destination: Address, owner: Address, amount: int, multiSigners: seq<Address>,
               tokenProgram: Program)

  /** The program an instruction is addressed to. */
  function ProgramOf(ix: Instruction): Program
  {
    match ix
    case CreateAccount(_, _, _, _, _) => SystemProgram
    case CreateAssociatedTokenAccount(_, _, _, _, _, atp) => atp
    case InitializeMint(_, _, _, _, tp) => tp
    case MintTo(_, _, _, _, tp) => tp
    case Transfer(_, _, _, _, _, tp) => tp
  }

  /**
   * Key arithmetic done locally by the SDK, left uninterpreted: which base58
   * strings decode to exactly 32 bytes, `PublicKey.isOnCurve`, and the
   * program-derived associated token address of (mint, owner) for a token
   * program (the associated token program id is always the standard one).
   */
  datatype Crypto = Crypto(
    isPublicKey: string -> bool,
    onCurve: Address -> bool,
    associatedAddress: (Address, Address, Program) -> Address)

  /** What `getAccountInfo` can find at an address. */
  datatype Account =
    | Allocated(space: nat, program: Program)
    | Mint(decimals: nat, authority: Option<Address>, supply: int, program: Program)
    | TokenAccount(mint: Address, holder: Address, balance: int, program: Program)
    | Other(program: Program)

  type State = map<Address, Account>

  /**
   * The answers the RPC node gives during one operation: the accounts,
   * `getMinimumBalanceForRentExemption` and `getLatestBlockhash`.
   */
  datatype Chain = Chain(accounts: State, rentExemption: nat -> nat, latestBlockhash: string)

  /** Exceptions the operations can raise before anything is submitted. */
  datatype Error =
    | NonBase58Character
    | InvalidPublicKey
    | TokenAccountNotFound
    | TokenInvalidAccountOwner
    | TokenInvalidAccountSize
    | TokenOwnerOffCurve
    | NotAnInteger
    | InvalidBigIntSyntax
    | ByteOutOfRange
    | Thrown(text: string)
    | WalletError(text: string)

  /** `error.message`: the token SDK's own errors carry an empty message. */
  function Message(e: Error): (r: string)
    ensures r == "" <==>
      || e.TokenAccountNotFound? || e.TokenInvalidAccountOwner? || e.TokenInvalidAccountSize? || e.TokenOwnerOffCurve?
      || ((e.Thrown? || e.WalletError?) && e.text == "")
    ensures e.Thrown? || e.WalletError? ==> r == e.text
  {
    match e
    case NonBase58Character => "Non-base58 character"
    case InvalidPublicKey => "Invalid public key input"
    case TokenAccountNotFound => ""
    case TokenInvalidAccountOwner => ""
    case TokenInvalidAccountSize => ""
    case TokenOwnerOffCurve => ""
    case NotAnInteger => "The number cannot be converted to a BigInt because it is not an integer"
    case InvalidBigIntSyntax => "Cannot convert the string to a BigInt"
    case ByteOutOfRange => "\"value\" argument is out of bounds"
    case Thrown(t) => t
    case WalletError(t) => t
  }

  /** A character of the bitcoin base58 alphabet: the digits and letters without `0`, `O`, `I` and `l`. */
  predicate IsBase58Char(c: char)
  {
    ('1' <= c <= '9') || ('A' <= c <= 'H') || ('J' <= c <= 'N') || ('P' <= c <= 'Z')
    || ('a' <= c <= 'k') || ('m' <= c <= 'z')
  }

  predicate IsBase58(s: string)
  {
    forall i :: 0 <= i < |s| ==> IsBase58Char(s[i])
  }

  /** The strings `new PublicKey(...)` accepts: base58 text that decodes to a 32-byte key. */
  predicate ValidKey(crypto: Crypto, s: string)
  {
    IsBase58(s) && crypto.isPublicKey(s)
  }

  /** The exception `new PublicKey(s)` raises for a string it rejects. */
  function KeyError(s: string): Error
  {
    if IsBase58(s) then InvalidPublicKey else NonBase58Character
  }

  /**
   * `new PublicKey(s)`: the base58 decoder rejects a character outside its
   * alphabet first; a decoded value of the wrong length is rejected next.
   */
  function ParsePublicKey(crypto: Crypto, s: string): (r: Result<Address, Error>)
    ensures r.Success? <==> ValidKey(crypto, s)
    ensures r.Success? ==> r.value.base58 == s
    ensures (exists i :: 0 <= i < |s| && !IsBase58Char(s[i])) ==> r == Failure(NonBase58Character)
    ensures IsBase58(s) && !crypto.isPublicKey(s) ==> r == Failure(InvalidPublicKey)
  {
    if !IsBase58(s) then Failure(NonBase58Character)
    else if !crypto.isPublicKey(s) then Failure(InvalidPublicKey)
    else Success(Address(s))
  }

  /** `getAssociatedTokenAddress(mint, owner, false, program)`: an off-curve owner throws. */
  function AssociatedTokenAddress(crypto: Crypto, mint: Address, owner: Address, program: Program): (r: Result<Address, Error>)
    ensures r.Success? <==> crypto.onCurve(owner)
    ensures r.Success? ==> r.value == crypto.associatedAddress(mint, owner, program)
  {
    if crypto.onCurve(owner) then Success(crypto.associatedAddress(mint, owner, program))
    else Failure(TokenOwnerOffCurve)
  }

  /** `getMint(connection, mint, _, program)`: the decimals of a mint owned by `program`. */
  function GetMint(chain: Chain, mint: Address, program: Program): (r: Result<nat, Error>)
    ensures r.Success? <==> mint in chain.accounts && chain.accounts[mint].Mint? && chain.accounts[mint].program == program
    ensures r.Success? ==> r.value == chain.accounts[mint].decimals
    ensures mint !in chain.accounts ==> r == Failure(TokenAccountNotFound)
  {
    if mint !in chain.accounts then Failure(TokenAccountNotFound)
    else if chain.accounts[mint].program != program then Failure(TokenInvalidAccountOwner)
    else if !chain.accounts[mint].Mint? then Failure(TokenInvalidAccountSize)
    else Success(chain.accounts[mint].decimals)
  }

  /** `connection.getAccountInfo(address) != null`. */
  predicate AccountExists(chain: Chain, address: Address)
  {
    address in chain.accounts
  }

  /** What the wallet and the network make of a transaction handed to `sendTransaction`. */
  datatype Delivery =
    | Rejected(reason: string)
    | Unconfirmed(signature: string, reason: string)
    | Confirmed(signature: string, failedOnChain: bool)

  /**
   * `await connection.confirmTransaction(signature, 'confirmed')`: it throws
   * only when the wait itself fails; the `err` of the returned status is not
   * looked at by any caller.
   */
  function ConfirmTransaction(delivery: Delivery): (r: Result<(), Error>)
    requires !delivery.Rejected?
    ensures r.Success? <==> delivery.Confirmed?
  {
    if delivery.Unconfirmed? then Failure(WalletError(delivery.reason)) else Success(())
  }

  /** A `react-hot-toast` notification. */
  datatype Toast = ToastSuccess(text: string) | ToastError(text: string)

  /** The content of a `Transaction` object. */
  datatype TxRecord = TxRecord(
    instructions: seq<Instruction>,
    feePayer: Option<Address>,
    recentBlockhash: Option<string>,
    partialSigners: seq<Address>)

  /** `new Transaction()` of web3.js: the forms append to it and set its fields in place. */
  class Transaction {
    var instructions: seq<Instruction>
    var feePayer: Option<Address>
    var recentBlockhash: Option<string>
    var partialSigners: seq<Address>

    function Record(): TxRecord
      reads this
    {
      TxRecord(instructions, feePayer, recentBlockhash, partialSigners)
    }

    constructor ()
      ensures Record() == TxRecord([], None, None, [])
    {
      instructions, feePayer, recentBlockhash, partialSigners := [], None, None, [];
    }

    /** `transaction.add(ix)`. */
    method Add(ix: Instruction)
      modifies this
      ensures instructions == old(instructions) + [ix]
      ensures feePayer == old(feePayer) && recentBlockhash == old(recentBlockhash)
      ensures partialSigners == old(partialSigners)
    {
      instructions := instructions + [ix];
    }

    /** `transaction.partialSign(keypair)`: the keypair's signature is attached. */
    method PartialSign(signer: Address)
      modifies this
      ensures partialSigners == old(partialSigners) + [signer]
      ensures instructions == old(instructions)
      ensures feePayer == old(feePayer) && recentBlockhash == old(recentBlockhash)
    {
      partialSigners := partialSigners + [signer];
    }
  }

  /** The wallet adapter's `useWallet()` view, and the log of what it was asked to send. */
  class Wallet {
    var connected: bool
    var publicKey: Option<Address>
    var canSend: bool
    var requests: seq<TxRecord>

    /** `connected && publicKey && sendTransaction`: the guard every form checks first. */
    predicate Ready()
      reads this
    {
      connected && publicKey.Some? && canSend
    }

    constructor (connected: bool, publicKey: Option<Address>, canSend: bool)
      ensures this.connected == connected && this.publicKey == publicKey && this.canSend == canSend
      ensures requests == []
    {
      this.connected, this.publicKey, this.canSend := connected, publicKey, canSend;
      requests := [];
    }

    /** `sendTransaction(transaction, connection)`: signs, submits, and yields the signature. */
    method SendTransaction(tx: Transaction, delivery: Delivery) returns (r: Result<string, Error>)
      modifies this
      ensures requests == old(requests) + [tx.Record()]
      ensures connected == old(connected) && publicKey == old(publicKey) && canSend == old(canSend)
      ensures delivery.Rejected? ==> r == Failure(WalletError(delivery.reason))
      ensures !delivery.Rejected? ==> r == Success(delivery.signature)
    {
      requests := requests + [tx.Record()];
      if delivery.Rejected? {
        r := Failure(WalletError(delivery.reason));
      } else {
        r := Success(delivery.signature);
      }
    }
  }
}
