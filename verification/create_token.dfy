/**
 * The "Create Token" form: a fresh mint account, its initialisation, the
 * creator's associated token account and the initial supply minted into it,
 * in one transaction co-signed by the new mint key.
 */
module CreateToken {
  import opened Wrappers
  import opened JsNumber
  import opened Solana
  import Ledger

  const DefaultDecimals := "9"
  const NotConnectedText := "Please connect your wallet first"
  const FailedText := "\U{274C} Failed to create token"
  const CreatedPrefix := "\U{2705} Token Created! Mint: "

  /** The form's `formData` state. */
  datatype FormData = FormData(
    name: string, symbol: string, description: string,
    totalSupply: string, decimals: string, imageUrl: string)

  const Blank := FormData("", "", "", "", DefaultDecimals, "")

  /** `BigInt(totalSupply * Math.pow(10, decimals))` on the two `parseInt` results. */
  function MintAmount(totalSupply: Option<int>, decimals: Option<int>): (r: Result<int, Error>)
    ensures r.Success? <==>
      totalSupply.Some? && decimals.Some? && IsIntegral(TimesPow10(totalSupply.value as real, decimals.value))
    ensures r.Success? ==> r.value as real == TimesPow10(totalSupply.value as real, decimals.value)
  {
    var product := if totalSupply.Some? && decimals.Some?
      then Finite(TimesPow10(totalSupply.value as real, decimals.value)) else NaN;
    match NumberToBigInt(product)
    case Some(n) => Success(n)
    case None => Failure(NotAnInteger)
  }

  /** With a non-negative number of decimals the minted amount is exactly supply times 10^decimals. */
  lemma MintAmountScales(totalSupply: int, decimals: nat)
    ensures MintAmount(Some(totalSupply), Some(decimals)) == Success(totalSupply * Pow10(decimals))
  {
    TimesPow10OfInteger(totalSupply, decimals);
    IntegerToBigInt(TimesPow10(totalSupply as real, decimals), totalSupply * Pow10(decimals));
  }

  /**
   * The instructions `handleSubmit` adds to its transaction, or the exception
   * it raises first, from the supply and decimals text, the connected wallet
   * and the generated mint key.
   */
  function CreateInstructions(wallet: Address, totalSupply: Option<int>, decimals: Option<int>, mintKey: Address,
                              crypto: Crypto, chain: Chain): (r: Result<seq<Instruction>, Error>)
    ensures r.Success? <==>
      MintAmount(totalSupply, decimals).Success? && crypto.onCurve(wallet) && FitsByte(decimals.value)
    ensures MintAmount(totalSupply, decimals).Failure? ==> r == Failure(NotAnInteger)
    ensures MintAmount(totalSupply, decimals).Success? && !crypto.onCurve(wallet) ==> r == Failure(TokenOwnerOffCurve)
    ensures MintAmount(totalSupply, decimals).Success? && crypto.onCurve(wallet) && !FitsByte(decimals.value) ==>
      r == Failure(ByteOutOfRange)
  {
    var mintAmount :- MintAmount(totalSupply, decimals);
    var lamports := chain.rentExemption(MintSize);
    var ata :- AssociatedTokenAddress(crypto, mintKey, wallet, TokenProgram);
    if !FitsByte(decimals.value) then Failure(ByteOutOfRange)
    else Success(CreateSequence(wallet, mintKey, lamports, decimals.value, ata, mintAmount))
  }

  /**
   * What a successful plan contains: the mint account created and initialised,
   * the wallet's associated account created, and the whole supply minted into it.
   */
  lemma CreatePlanShape(wallet: Address, totalSupply: Option<int>, decimals: Option<int>, mintKey: Address,
                        crypto: Crypto, chain: Chain)
    requires CreateInstructions(wallet, totalSupply, decimals, mintKey, crypto, chain).Success?
    ensures var ixs, ata := CreateInstructions(wallet, totalSupply, decimals, mintKey, crypto, chain).value,
               crypto.associatedAddress(mintKey, wallet, TokenProgram);
      && |ixs| == 4
      && ixs[0].CreateAccount? && ixs[1].InitializeMint? && ixs[2].CreateAssociatedTokenAccount? && ixs[3].MintTo?
      // the fresh key becomes a mint-sized, rent-exempt account of the token program, funded by the wallet
      && ixs[0].fromPubkey == wallet && ixs[0].newAccountPubkey == mintKey
      && ixs[0].space == MintSize && ixs[0].lamports == chain.rentExemption(MintSize) && ixs[0].programId == TokenProgram
      // it is initialised with the typed decimals, the wallet as mint authority, no freeze authority
      && ixs[1].mint == mintKey && Some(ixs[1].decimals) == decimals && FitsByte(ixs[1].decimals)
      && ixs[1].mintAuthority == wallet && ixs[1].freezeAuthority.None?
      // the wallet's associated account for the new mint is created and receives the whole supply
      && ixs[2] == CreateAssociatedTokenAccount(wallet, ata, wallet, mintKey, TokenProgram, AssociatedTokenProgram)
      && ixs[3].mint == mintKey && ixs[3].destination == ata && ixs[3].authority == wallet
      && ixs[3].amount as real == TimesPow10(totalSupply.value as real, ixs[1].decimals)
      && (forall i :: 1 <= i < 4 ==> ProgramOf(ixs[i]) in {TokenProgram, AssociatedTokenProgram})
  {
  }

  /** When both the amount and the derived account are available, the plan is the four-instruction sequence. */
  lemma PlanOnSuccess(wallet: Address, totalSupply: Option<int>, decimals: Option<int>, mintKey: Address,
                      crypto: Crypto, chain: Chain)
    requires MintAmount(totalSupply, decimals).Success?
    requires AssociatedTokenAddress(crypto, mintKey, wallet, TokenProgram).Success?
    requires FitsByte(decimals.value)
    ensures CreateInstructions(wallet, totalSupply, decimals, mintKey, crypto, chain)
         == Success(CreateSequence(wallet, mintKey, chain.rentExemption(MintSize), decimals.value,
                                   AssociatedTokenAddress(crypto, mintKey, wallet, TokenProgram).value,
                                   MintAmount(totalSupply, decimals).value))
  {
  }

  /** A supply or decimals that `parseInt` rejects fails whatever the chain would answer. */
  lemma BadSupplyFailsBeforeAnyQuery(wallet: Address, totalSupply: Option<int>, decimals: Option<int>,
                                     mintKey: Address, crypto: Crypto, chain: Chain, other: Chain)
    requires totalSupply.None? || decimals.None?
    ensures CreateInstructions(wallet, totalSupply, decimals, mintKey, crypto, chain) == Failure(NotAnInteger)
    ensures CreateInstructions(wallet, totalSupply, decimals, mintKey, crypto, other) == Failure(NotAnInteger)
  {
  }

  /** The state the four instructions leave: a new mint whose whole supply sits in the creator's account. */
  function Created(st: State, wallet: Address, mintKey: Address, ata: Address, decimals: nat, amount: int): State
  {
    st[mintKey := Mint(decimals, Some(wallet), amount, TokenProgram)]
      [ata := TokenAccount(mintKey, wallet, amount, TokenProgram)]
  }

  /** The four instructions of a creation, as `handleSubmit` orders them. */
  function CreateSequence(wallet: Address, mintKey: Address, lamports: nat, decimals: int, ata: Address, amount: int)
    : seq<Instruction>
  {
    [CreateAccount(wallet, mintKey, lamports, MintSize, TokenProgram),
     InitializeMint(mintKey, decimals, wallet, None, TokenProgram),
     CreateAssociatedTokenAccount(wallet, ata, wallet, mintKey, TokenProgram, AssociatedTokenProgram),
     MintTo(mintKey, ata, wallet, amount, TokenProgram)]
  }

  lemma SequenceLands(crypto: Crypto, st: State, wallet: Address, mintKey: Address, lamports: nat, decimals: nat,
                      amount: int)
    requires decimals < 256 && amount >= 0
    requires mintKey !in st && crypto.associatedAddress(mintKey, wallet, TokenProgram) !in st
    requires crypto.associatedAddress(mintKey, wallet, TokenProgram) != mintKey
    ensures var ata := crypto.associatedAddress(mintKey, wallet, TokenProgram);
            Ledger.Execute(crypto, st, CreateSequence(wallet, mintKey, lamports, decimals, ata, amount))
              == Some(Created(st, wallet, mintKey, ata, decimals, amount))
  {
    var ata := crypto.associatedAddress(mintKey, wallet, TokenProgram);
    var ixs := CreateSequence(wallet, mintKey, lamports, decimals, ata, amount);
    var s1 := st[mintKey := Allocated(MintSize, TokenProgram)];
    var s2 := s1[mintKey := Mint(decimals, Some(wallet), 0, TokenProgram)];
    var s3 := s2[ata := TokenAccount(mintKey, wallet, 0, TokenProgram)];
    var s4 := Created(st, wallet, mintKey, ata, decimals, amount);
    assert Ledger.Step(crypto, st, ixs[0]) == Some(s1);
    assert Ledger.Step(crypto, s1, ixs[1]) == Some(s2);
    assert Ledger.Step(crypto, s2, ixs[2]) == Some(s3);
    assert s3[mintKey := s3[mintKey].(supply := amount)][ata := s3[ata].(balance := amount)] == s4;
    assert Ledger.Step(crypto, s3, ixs[3]) == Some(s4);
    assert ixs[1..][1..] == ixs[2..];
    assert ixs[2..][1..] == ixs[3..];
    assert ixs[3..][1..] == [];
    calc {
      Ledger.Execute(crypto, st, ixs);
      Ledger.Execute(crypto, s1, ixs[1..]);
      Ledger.Execute(crypto, s2, ixs[2..]);
      Ledger.Execute(crypto, s3, ixs[3..]);
      Ledger.Execute(crypto, s4, []);
    }
  }

  /**
   * On a chain where the generated key and its derived account are unused,
   * the assembled transaction lands and leaves the wallet holding the
   * minted supply of a mint it controls.
   */
  lemma CreateLands(wallet: Address, totalSupply: nat, decimals: nat, mintKey: Address,
                    crypto: Crypto, chain: Chain, st: State)
    requires CreateInstructions(wallet, Some(totalSupply), Some(decimals), mintKey, crypto, chain).Success?
    requires mintKey !in st && crypto.associatedAddress(mintKey, wallet, TokenProgram) !in st
    requires crypto.associatedAddress(mintKey, wallet, TokenProgram) != mintKey
    ensures Ledger.Execute(crypto, st, CreateInstructions(wallet, Some(totalSupply), Some(decimals), mintKey, crypto, chain).value)
         == Some(Created(st, wallet, mintKey, crypto.associatedAddress(mintKey, wallet, TokenProgram),
                         decimals, totalSupply * Pow10(decimals)))
  {
    MintAmountScales(totalSupply, decimals);
    SequenceLands(crypto, st, wallet, mintKey, chain.rentExemption(MintSize), decimals, totalSupply * Pow10(decimals));
  }

  /** The order matters: initialising the mint before its account is allocated is rejected. */
  lemma CreateOrderMatters(wallet: Address, totalSupply: Option<int>, decimals: Option<int>, mintKey: Address,
                           crypto: Crypto, chain: Chain, st: State)
    requires CreateInstructions(wallet, totalSupply, decimals, mintKey, crypto, chain).Success?
    requires mintKey !in st
    ensures var ixs := CreateInstructions(wallet, totalSupply, decimals, mintKey, crypto, chain).value;
            Ledger.Execute(crypto, st, [ixs[1], ixs[0], ixs[2], ixs[3]]) == None
  {
  }

  /**
   * The transaction `handleSubmit` builds: the four instructions in order,
   * the wallet as fee payer, the latest blockhash, and the mint key's
   * partial signature.
   */
  method AssembleCreation(wallet: Address, mintKey: Address, lamports: nat, decimals: int, ata: Address,
                          amount: int, blockhash: string) returns (transaction: Transaction)
    ensures fresh(transaction)
    ensures transaction.Record()
         == TxRecord(CreateSequence(wallet, mintKey, lamports, decimals, ata, amount), Some(wallet), Some(blockhash),
                     [mintKey])
  {
    transaction := new Transaction();
    transaction.Add(CreateAccount(wallet, mintKey, lamports, MintSize, TokenProgram));
    transaction.Add(InitializeMint(mintKey, decimals, wallet, None, TokenProgram));
    transaction.Add(CreateAssociatedTokenAccount(wallet, ata, wallet, mintKey, TokenProgram, AssociatedTokenProgram));
    transaction.Add(MintTo(mintKey, ata, wallet, amount, TokenProgram));
    transaction.feePayer := Some(wallet);
    transaction.recentBlockhash := Some(blockhash);
    transaction.PartialSign(mintKey);
  }

  /** The component: its form state and the submit handler. */
  class CreateTokenForm {
    var formData: FormData
    var loading: bool

    constructor ()
      ensures formData == Blank && !loading
    {
      formData, loading := Blank, false;
    }

    /**
     * `handleSubmit`. `mintKey` is the keypair `Keypair.generate()` returns;
     * `chain` is what the RPC node answers; `delivery` is what becomes of
     * the transaction once it is handed to the wallet.
     */
    method HandleSubmit(wallet: Wallet, mintKey: Address, crypto: Crypto, chain: Chain, delivery: Delivery)
      returns (toast: Toast)
      modifies this, wallet
      ensures wallet.connected == old(wallet.connected) && wallet.publicKey == old(wallet.publicKey)
      ensures wallet.canSend == old(wallet.canSend)
      ensures !old(wallet.Ready()) ==>
        toast == ToastError(NotConnectedText) && wallet.requests == old(wallet.requests)
        && formData == old(formData) && loading == old(loading)
      ensures old(wallet.Ready()) ==> !loading
      ensures old(wallet.Ready()) ==>
        var plan := CreateInstructions(old(wallet.publicKey).value, ParseInt(old(formData).totalSupply),
                                       ParseInt(old(formData).decimals), mintKey, crypto, chain);
        && (plan.Failure? ==>
              wallet.requests == old(wallet.requests) && formData == old(formData) && toast == ToastError(FailedText))
        && (plan.Success? ==>
              wallet.requests == old(wallet.requests) +
                [TxRecord(plan.value, old(wallet.publicKey), Some(chain.latestBlockhash), [mintKey])])
        && (plan.Success? && delivery.Confirmed? ==>
              formData == Blank && toast == ToastSuccess(CreatedPrefix + mintKey.base58))
        && (plan.Success? && !delivery.Confirmed? ==>
              formData == old(formData) && toast == ToastError(FailedText))
    {
      if !wallet.Ready() {
        toast := ToastError(NotConnectedText);
        return;
      }
      loading := true;
      var publicKey := wallet.publicKey.value;
      var decimals := ParseInt(formData.decimals);
      var totalSupply := ParseInt(formData.totalSupply);
      ghost var plan := CreateInstructions(publicKey, totalSupply, decimals, mintKey, crypto, chain);
      var mintAmount := MintAmount(totalSupply, decimals);
      if mintAmount.Failure? {
        assert plan.Failure?;
        toast, loading := ToastError(FailedText), false;
        return;
      }
      var lamports := chain.rentExemption(MintSize);
      var ata := AssociatedTokenAddress(crypto, mintKey, publicKey, TokenProgram);
      if ata.Failure? {
        assert plan.Failure?;
        toast, loading := ToastError(FailedText), false;
        return;
      }
      if !FitsByte(decimals.value) {
        assert plan.Failure?;
        toast, loading := ToastError(FailedText), false;
        return;
      }
      PlanOnSuccess(publicKey, totalSupply, decimals, mintKey, crypto, chain);
      var transaction := AssembleCreation(publicKey, mintKey, lamports, decimals.value, ata.value,
                                          mintAmount.value, chain.latestBlockhash);
      var signature := wallet.SendTransaction(transaction, delivery);
      if signature.Failure? || ConfirmTransaction(delivery).Failure? {
        toast, loading := ToastError(FailedText), false;
        return;
      }
      toast := ToastSuccess(CreatedPrefix + mintKey.base58);
      formData := Blank;
      loading := false;
    }
  }
}
