/**
 * The "Mint Tokens" form: more supply of an existing classic-token mint,
 * minted by the connected wallet (the mint authority) into the recipient's
 * associated token account, which is created first when it does not exist.
 */
module MintToken {
  import opened Wrappers
  import opened JsString
  import opened JsNumber
  import opened Solana
  import Ledger

  const NotConnectedText := "Please connect your wallet"
  const FailedText := "\U{274C} Minting failed"

  /** `✅ Minted ${amount} tokens!` */
  function MintedText(amount: string): (t: string)
    ensures |t| == |"\U{2705} Minted "| + |amount| + |" tokens!"|
    ensures t[..|"\U{2705} Minted "|] == "\U{2705} Minted "
    ensures t[|"\U{2705} Minted "|..|t| - |" tokens!"|] == amount
    ensures t[|t| - |" tokens!"|..] == " tokens!"
  {
    "\U{2705} Minted " + amount + " tokens!"
  }

  /** The form's `formData` state. */
  datatype FormData = FormData(tokenAddress: string, amount: string, recipientAddress: string)

  const Blank := FormData("", "", "")

  /** `BigInt(amount * 10 ** decimals)`, `amount` being `Number(formData.amount)`. */
  function ScaledAmount(amount: Num, decimals: nat): (r: Result<int, Error>)
    ensures r.Success? <==> amount.Finite? && IsIntegral(TimesPow10(amount.value, decimals))
    ensures r.Success? ==> r.value as real == TimesPow10(amount.value, decimals)
    ensures r.Failure? ==> r.error == NotAnInteger
  {
    var product := if amount.Finite? then Finite(TimesPow10(amount.value, decimals)) else NaN;
    match NumberToBigInt(product)
    case Some(n) => Success(n)
    case None => Failure(NotAnInteger)
  }

  /** A whole number of tokens is minted as that many times 10^decimals base units. */
  lemma ScaledWhole(tokens: int, decimals: nat)
    ensures ScaledAmount(Finite(tokens as real), decimals) == Success(tokens * Pow10(decimals))
  {
    TimesPow10OfInteger(tokens, decimals);
    IntegerToBigInt(TimesPow10(tokens as real, decimals), tokens * Pow10(decimals));
  }

  /** An amount typed as plain digits is that many whole tokens. */
  lemma ScaledAmountOfDigits(ds: string, decimals: nat)
    requires ds != [] && AllDigits(ds)
    ensures ScaledAmount(ToNumber(ds), decimals) == Success(DigitsValue(ds) * Pow10(decimals))
  {
    ToNumberOfDigits(ds);
    ScaledWhole(DigitsValue(ds), decimals);
  }

  /**
   * An amount typed as `ds.fs` with no more fraction digits than the mint
   * has decimals is minted exactly: the digits read as one integer, padded
   * with zeros up to the decimals.
   */
  lemma ScaledDecimal(ds: string, fs: string, decimals: nat)
    requires AllDigits(ds) && AllDigits(fs) && ds + fs != []
    requires |fs| <= decimals
    ensures ScaledAmount(ToNumber(ds + "." + fs), decimals) == Success(DecimalUnits(ds, fs, decimals))
  {
    ToNumberOfDecimal(ds, fs);
    MantissaScaled(ds, fs, decimals);
    IntegerToBigInt(TimesPow10(Mantissa(ds, fs), decimals), DecimalUnits(ds, fs, decimals));
  }

  /** "10.5" tokens of a mint with two decimals are 1050 base units. */
  lemma TenAndAHalfAtTwoDecimals()
    ensures ScaledAmount(ToNumber("10.5"), 2) == Success(1050)
  {
    TenAndAHalfUnits();
    ScaledDecimal("10", "5", 2);
    assert "10" + "." + "5" == "10.5";
  }

  /** "10.5" at two places is the integer 1050. */
  lemma TenAndAHalfUnits()
    ensures AllDigits("10") && AllDigits("5") && DecimalUnits("10", "5", 2) == 1050
  {
    assert DigitsValue("10") == 10 by { assert "10"[..1] == "1" && "1"[..0] == ""; }
    assert DigitsValue("5") == 5 by { assert "5"[..0] == ""; }
    assert Pow10(1) == 10;
  }

  /** More fractional digits than the mint has decimals cannot be minted: "0.5" of a mint without decimals throws. */
  lemma HalfTokenOfWholeMintFails()
    ensures ScaledAmount(ToNumber("0.5"), 0) == Failure(NotAnInteger)
  {
    assert Trim("0.5") == "0.5" by {
      assert TrimStart("0.5") == "0.5";
      assert TrimEnd("0.5") == "0.5";
    }
    var t := "0.5";
    assert DigitRun(t) == 1 by {
      assert DigitRun(t[1..]) == 0;
    }
    assert t[1..] == ".5";
    var fraction := t[1..][1..];
    assert fraction == "5";
    assert DigitRun(fraction) == 1 by {
      assert fraction[1..] == [];
    }
    assert DigitsValue(t[..1]) == 0;
    assert DigitsValue(fraction[..1]) == 5;
    assert TimesPow10(5.0, -1) == 0.5 by {
      assert TimesPow10(5.0, 0) == 5.0;
    }
    assert UnsignedDecimal(t) == Finite(0.5);
    assert ToNumber(t) == Finite(0.5);
    assert (0.5).Floor == 0;
  }

  /** The instructions of a mint, as `handleSubmit` orders them. */
  function MintSequence(wallet: Address, mint: Address, recipient: Address, ata: Address, ataExists: bool,
                        amount: int): seq<Instruction>
  {
    (if ataExists then [] else [CreateAssociatedTokenAccount(wallet, ata, recipient, mint, TokenProgram,
                                                             AssociatedTokenProgram)])
    + [MintTo(mint, ata, wallet, amount, TokenProgram)]
  }

  /**
   * The instructions `handleSubmit` adds to its transaction, or the exception
   * it raises first: the two addresses are parsed, the mint's decimals read
   * from the chain, the recipient's associated account derived and looked
   * up, and only then is the amount converted.
   */
  function MintInstructions(wallet: Address, tokenAddress: string, amount: Num, recipientAddress: string,
                            crypto: Crypto, chain: Chain): (r: Result<seq<Instruction>, Error>)
    ensures !ValidKey(crypto, tokenAddress) ==> r == Failure(KeyError(tokenAddress))
    ensures ValidKey(crypto, tokenAddress) && !ValidKey(crypto, recipientAddress) ==>
      r == Failure(KeyError(recipientAddress))
    ensures ValidKey(crypto, tokenAddress) && ValidKey(crypto, recipientAddress) ==>
      var mint, recipient := Address(tokenAddress), Address(recipientAddress);
      var decimals := GetMint(chain, mint, TokenProgram);
      && (decimals.Failure? ==> r == Failure(decimals.error))
      && (decimals.Success? && !crypto.onCurve(recipient) ==> r == Failure(TokenOwnerOffCurve))
      && (decimals.Success? && crypto.onCurve(recipient) ==>
            var ata := crypto.associatedAddress(mint, recipient, TokenProgram);
            var scaled := ScaledAmount(amount, decimals.value);
            && (scaled.Failure? ==> r == Failure(NotAnInteger))
            && (scaled.Success? ==>
                  r == Success(MintSequence(wallet, mint, recipient, ata, AccountExists(chain, ata), scaled.value))))
  {
    var mint :- ParsePublicKey(crypto, tokenAddress);
    var recipient :- ParsePublicKey(crypto, recipientAddress);
    var decimals :- GetMint(chain, mint, TokenProgram);
    var ata :- AssociatedTokenAddress(crypto, mint, recipient, TokenProgram);
    var ataExists := AccountExists(chain, ata);
    var scaled :- ScaledAmount(amount, decimals);
    Success(MintSequence(wallet, mint, recipient, ata, ataExists, scaled))
  }

  /**
   * A successful plan mints, with the wallet as authority, the amount scaled
   * by the decimals the chain reports for the mint, into the recipient's
   * associated account; the account-creation instruction comes first exactly
   * when that account does not exist yet.
   */
  lemma MintPlanShape(wallet: Address, tokenAddress: string, amount: Num, recipientAddress: string,
                      crypto: Crypto, chain: Chain)
    requires MintInstructions(wallet, tokenAddress, amount, recipientAddress, crypto, chain).Success?
    ensures var ixs := MintInstructions(wallet, tokenAddress, amount, recipientAddress, crypto, chain).value;
      var mint, recipient := Address(tokenAddress), Address(recipientAddress);
      var ata := crypto.associatedAddress(mint, recipient, TokenProgram);
      && mint in chain.accounts && chain.accounts[mint].Mint? && chain.accounts[mint].program == TokenProgram
      && (|ixs| == 1 || |ixs| == 2)
      && (|ixs| == 2 <==> ata !in chain.accounts)
      && (|ixs| == 2 ==> ixs[0] == CreateAssociatedTokenAccount(wallet, ata, recipient, mint, TokenProgram,
                                                                 AssociatedTokenProgram))
      && ixs[|ixs| - 1].MintTo?
      && ixs[|ixs| - 1].mint == mint && ixs[|ixs| - 1].destination == ata && ixs[|ixs| - 1].authority == wallet
      && ixs[|ixs| - 1].tokenProgram == TokenProgram
      && ixs[|ixs| - 1].amount as real == TimesPow10(amount.value, chain.accounts[mint].decimals)
  {
    var mint, recipient := Address(tokenAddress), Address(recipientAddress);
    assert ValidKey(crypto, tokenAddress) && ValidKey(crypto, recipientAddress);
    var decimals := GetMint(chain, mint, TokenProgram);
    assert decimals.Success? && crypto.onCurve(recipient);
    assert ScaledAmount(amount, decimals.value).Success?;
  }

  /** A mint account that the chain does not know fails the whole submission before any instruction is built. */
  lemma UnknownMintFails(wallet: Address, tokenAddress: string, amount: Num, recipientAddress: string,
                         crypto: Crypto, chain: Chain)
    requires ValidKey(crypto, tokenAddress) && ValidKey(crypto, recipientAddress)
    requires Address(tokenAddress) !in chain.accounts
    ensures MintInstructions(wallet, tokenAddress, amount, recipientAddress, crypto, chain) == Failure(TokenAccountNotFound)
  {
  }

  /** The state after a mint: the supply and the recipient's balance both grow by the amount. */
  function Minted(st: State, mint: Address, recipient: Address, ata: Address, amount: int): State
    requires mint in st && st[mint].Mint?
  {
    var before := if ata in st && st[ata].TokenAccount? then st[ata].balance else 0;
    st[mint := st[mint].(supply := st[mint].supply + amount)]
      [ata := TokenAccount(mint, recipient, before + amount, TokenProgram)]
  }

  lemma SequenceLands(crypto: Crypto, st: State, wallet: Address, mint: Address, recipient: Address, amount: int)
    requires mint in st && st[mint].Mint? && st[mint].program == TokenProgram && st[mint].authority == Some(wallet)
    requires amount >= 0
    requires var ata := crypto.associatedAddress(mint, recipient, TokenProgram);
      ata in st ==> st[ata].TokenAccount? && st[ata] == TokenAccount(mint, recipient, st[ata].balance, TokenProgram)
    ensures var ata := crypto.associatedAddress(mint, recipient, TokenProgram);
      Ledger.Execute(crypto, st, MintSequence(wallet, mint, recipient, ata, ata in st, amount))
        == Some(Minted(st, mint, recipient, ata, amount))
  {
    var ata := crypto.associatedAddress(mint, recipient, TokenProgram);
    var ixs := MintSequence(wallet, mint, recipient, ata, ata in st, amount);
    var mintTo := MintTo(mint, ata, wallet, amount, TokenProgram);
    if ata in st {
      assert ixs == [mintTo];
      assert st[ata].TokenAccount? && st[ata].mint == mint;
      var after := st[mint := st[mint].(supply := st[mint].supply + amount)]
                     [ata := st[ata].(balance := st[ata].balance + amount)];
      assert Ledger.Step(crypto, st, mintTo) == Some(after);
      assert after == Minted(st, mint, recipient, ata, amount);
      assert ixs[1..] == [];
    } else {
      var create := CreateAssociatedTokenAccount(wallet, ata, recipient, mint, TokenProgram, AssociatedTokenProgram);
      assert ixs == [create, mintTo];
      var s1 := st[ata := TokenAccount(mint, recipient, 0, TokenProgram)];
      assert Ledger.Step(crypto, st, create) == Some(s1);
      assert ata != mint;
      var s2 := s1[mint := s1[mint].(supply := s1[mint].supply + amount)]
                  [ata := s1[ata].(balance := s1[ata].balance + amount)];
      assert Ledger.Step(crypto, s1, mintTo) == Some(s2);
      assert s2 == Minted(st, mint, recipient, ata, amount);
      assert ixs[1..] == [mintTo] && ixs[1..][1..] == [];
      calc {
        Ledger.Execute(crypto, st, ixs);
        Ledger.Execute(crypto, s1, ixs[1..]);
        Ledger.Execute(crypto, s2, []);
      }
    }
  }

  /**
   * When the wallet is the mint's authority, the amount is not negative and
   * any existing account at the derived address is the recipient's account
   * for this mint, the assembled transaction lands and credits the
   * recipient with exactly the minted amount.
   */
  lemma MintLands(wallet: Address, tokenAddress: string, amount: Num, recipientAddress: string,
                  crypto: Crypto, chain: Chain)
    requires MintInstructions(wallet, tokenAddress, amount, recipientAddress, crypto, chain).Success?
    requires MintInstructions(wallet, tokenAddress, amount, recipientAddress, crypto, chain).value
               [|MintInstructions(wallet, tokenAddress, amount, recipientAddress, crypto, chain).value| - 1].amount >= 0
    requires chain.accounts[Address(tokenAddress)].authority == Some(wallet)
    requires var ata := crypto.associatedAddress(Address(tokenAddress), Address(recipientAddress), TokenProgram);
      ata in chain.accounts ==>
        chain.accounts[ata].TokenAccount? && chain.accounts[ata] == TokenAccount(Address(tokenAddress), Address(recipientAddress),
                                            chain.accounts[ata].balance, TokenProgram)
    ensures var mint, recipient := Address(tokenAddress), Address(recipientAddress);
      var ixs := MintInstructions(wallet, tokenAddress, amount, recipientAddress, crypto, chain).value;
      var ata := crypto.associatedAddress(mint, recipient, TokenProgram);
      Ledger.Execute(crypto, chain.accounts, ixs) == Some(Minted(chain.accounts, mint, recipient, ata, ixs[|ixs| - 1].amount))
  {
    MintPlanShape(wallet, tokenAddress, amount, recipientAddress, crypto, chain);
    var mint, recipient := Address(tokenAddress), Address(recipientAddress);
    var ixs := MintInstructions(wallet, tokenAddress, amount, recipientAddress, crypto, chain).value;
    var ata := crypto.associatedAddress(mint, recipient, TokenProgram);
    var scaled := ScaledAmount(amount, chain.accounts[mint].decimals);
    assert ixs == MintSequence(wallet, mint, recipient, ata, ata in chain.accounts, scaled.value);
    SequenceLands(crypto, chain.accounts, wallet, mint, recipient, scaled.value);
  }

  /** A wallet that is not the mint's authority gets the transaction rejected: nothing is minted. */
  lemma NonAuthorityRejected(wallet: Address, tokenAddress: string, amount: Num, recipientAddress: string,
                             crypto: Crypto, chain: Chain)
    requires MintInstructions(wallet, tokenAddress, amount, recipientAddress, crypto, chain).Success?
    requires chain.accounts[Address(tokenAddress)].authority != Some(wallet)
    ensures Ledger.Execute(crypto, chain.accounts,
                           MintInstructions(wallet, tokenAddress, amount, recipientAddress, crypto, chain).value) == None
  {
    MintPlanShape(wallet, tokenAddress, amount, recipientAddress, crypto, chain);
    var mint, recipient := Address(tokenAddress), Address(recipientAddress);
    var ixs := MintInstructions(wallet, tokenAddress, amount, recipientAddress, crypto, chain).value;
    var ata := crypto.associatedAddress(mint, recipient, TokenProgram);
    var st := chain.accounts;
    if |ixs| == 1 {
      assert Ledger.Step(crypto, st, ixs[0]) == None;
    } else {
      var s1 := st[ata := TokenAccount(mint, recipient, 0, TokenProgram)];
      assert ata != mint;
      match Ledger.Step(crypto, st, ixs[0])
      case None =>
      case Some(next) =>
        assert next == s1;
        assert Ledger.Step(crypto, s1, ixs[1]) == None;
        assert ixs[1..] == [ixs[1]] && ixs[1..][1..] == [];
    }
  }

  /**
   * The transaction `handleSubmit` builds: the instructions in order, the
   * wallet as fee payer and the latest blockhash; nobody else signs.
   */
  method AssembleMint(wallet: Address, mint: Address, recipient: Address, ata: Address, ataExists: bool,
                      amount: int, blockhash: string) returns (transaction: Transaction)
    ensures fresh(transaction)
    ensures transaction.Record()
         == TxRecord(MintSequence(wallet, mint, recipient, ata, ataExists, amount), Some(wallet), Some(blockhash), [])
  {
    transaction := new Transaction();
    if !ataExists {
      transaction.Add(CreateAssociatedTokenAccount(wallet, ata, recipient, mint, TokenProgram, AssociatedTokenProgram));
    }
    transaction.Add(MintTo(mint, ata, wallet, amount, TokenProgram));
    transaction.feePayer := Some(wallet);
    transaction.recentBlockhash := Some(blockhash);
  }

  /** The component: its form state and the submit handler. */
  class MintTokenForm {
    var formData: FormData
    var loading: bool

    constructor ()
      ensures formData == Blank && !loading
    {
      formData, loading := Blank, false;
    }

    /**
     * `handleSubmit`. `chain` is what the RPC node answers; `delivery` is
     * what becomes of the transaction once it is handed to the wallet.
     */
    method HandleSubmit(wallet: Wallet, crypto: Crypto, chain: Chain, delivery: Delivery) returns (toast: Toast)
      modifies this, wallet
      ensures wallet.connected == old(wallet.connected) && wallet.publicKey == old(wallet.publicKey)
      ensures wallet.canSend == old(wallet.canSend)
      ensures !old(wallet.Ready()) ==>
        toast == ToastError(NotConnectedText) && wallet.requests == old(wallet.requests)
        && formData == old(formData) && loading == old(loading)
      ensures old(wallet.Ready()) ==> !loading
      ensures old(wallet.Ready()) ==>
        var plan := MintInstructions(old(wallet.publicKey).value, old(formData).tokenAddress, ToNumber(old(formData).amount),
                                     old(formData).recipientAddress, crypto, chain);
        && (plan.Failure? ==>
              wallet.requests == old(wallet.requests) && formData == old(formData) && toast == ToastError(FailedText))
        && (plan.Success? ==>
              wallet.requests == old(wallet.requests) +
                [TxRecord(plan.value, old(wallet.publicKey), Some(chain.latestBlockhash), [])])
        && (plan.Success? && delivery.Confirmed? ==>
              formData == Blank && toast == ToastSuccess(MintedText(old(formData).amount)))
        && (plan.Success? && !delivery.Confirmed? ==>
              formData == old(formData) && toast == ToastError(FailedText))
    {
      if !wallet.Ready() {
        toast := ToastError(NotConnectedText);
        return;
      }
      loading := true;
      var publicKey := wallet.publicKey.value;
      ghost var plan := MintInstructions(publicKey, formData.tokenAddress, ToNumber(formData.amount), formData.recipientAddress,
                                         crypto, chain);
      var mint := ParsePublicKey(crypto, formData.tokenAddress);
      var recipient := ParsePublicKey(crypto, formData.recipientAddress);
      if mint.Failure? || recipient.Failure? {
        toast, loading := ToastError(FailedText), false;
        return;
      }
      var decimals := GetMint(chain, mint.value, TokenProgram);
      if decimals.Failure? {
        toast, loading := ToastError(FailedText), false;
        return;
      }
      var ata := AssociatedTokenAddress(crypto, mint.value, recipient.value, TokenProgram);
      if ata.Failure? {
        toast, loading := ToastError(FailedText), false;
        return;
      }
      var ataExists := AccountExists(chain, ata.value);
      var amount := ScaledAmount(ToNumber(formData.amount), decimals.value);
      if amount.Failure? {
        toast, loading := ToastError(FailedText), false;
        return;
      }
      var transaction := AssembleMint(publicKey, mint.value, recipient.value, ata.value, ataExists, amount.value,
                                      chain.latestBlockhash);
      var signature := wallet.SendTransaction(transaction, delivery);
      if signature.Failure? || ConfirmTransaction(delivery).Failure? {
        toast, loading := ToastError(FailedText), false;
        return;
      }
      toast := ToastSuccess(MintedText(formData.amount));
      formData := Blank;
      loading := false;
    }
  }
}
