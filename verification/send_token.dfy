/**
 * The "Send Tokens" form: a Token-2022 transfer from the wallet's
 * associated token account to the recipient's, creating the recipient's
 * account first when it does not exist.
 */
module SendToken {
  import opened Wrappers
  import opened JsString
  import opened JsNumber
  import opened Solana
  import Ledger
  import CreateToken

  const NotConnectedText := "Please connect your wallet first"
  const SentText := "Tokens sent successfully!"
  const FailurePrefix := "Failed to send tokens: "
  const NotPositiveText := "Amount must be a positive number"
  const NoSenderAccountText := "Sender's associated token account does not exist or is invalid."

  /** `'Failed to send tokens: ' + (error?.message || 'Unknown error')`. */
  function FailureText(e: Error): (t: string)
    ensures Message(e) != "" ==> t == FailurePrefix + Message(e)
    ensures Message(e) == "" ==> t == FailurePrefix + "Unknown error"
    ensures (e.TokenAccountNotFound? || e.TokenInvalidAccountOwner? || e.TokenInvalidAccountSize?
             || e.TokenOwnerOffCurve?) ==> t == FailurePrefix + "Unknown error"
    ensures (e.Thrown? || e.WalletError?) && e.text != "" ==> t == FailurePrefix + e.text
  {
    FailurePrefix + (if Message(e) == "" then "Unknown error" else Message(e))
  }

  /** The form's `formData` state. */
  datatype FormData = FormData(tokenAddress: string, amount: string, recipientAddress: string)

  const Blank := FormData("", "", "")

  /** `isNaN(parsedAmount) || parsedAmount <= 0` rejects the amount. */
  predicate IsPositive(amount: Num)
  {
    amount.Finite? && amount.value > 0.0
  }

  /** `Math.floor(parsedAmount * 10 ** decimals)`: the base units, rounded down. */
  function BaseUnits(amount: real, decimals: nat): (units: int)
    ensures units as real <= TimesPow10(amount, decimals) < units as real + 1.0
    ensures amount >= 0.0 ==> units >= 0
  {
    TimesPow10Sign(amount, decimals);
    TimesPow10(amount, decimals).Floor
  }

  /** A positive amount below one base unit passes the positivity check yet transfers nothing. */
  lemma DustSendsNothing(amount: real, decimals: nat)
    requires 0.0 < amount && TimesPow10(amount, decimals) < 1.0
    ensures IsPositive(Finite(amount)) && BaseUnits(amount, decimals) == 0
  {
  }

  /** The instructions of a transfer, as `handleSubmit` orders them. */
  function SendSequence(wallet: Address, mint: Address, recipient: Address, senderAta: Address, recipientAta: Address,
                        recipientExists: bool, amount: int): seq<Instruction>
  {
    (if recipientExists then []
     else [CreateAssociatedTokenAccount(wallet, recipientAta, recipient, mint, Token2022Program,
                                        AssociatedTokenProgram)])
    + [Transfer(senderAta, recipientAta, wallet, amount, [], Token2022Program)]
  }

  /**
   * The instructions `handleSubmit` adds to its transaction, or the exception
   * it raises first. `amount` is `Number(formData.amount)`. The addresses
   * are trimmed and parsed, the mint's decimals read under Token-2022, the
   * amount checked, both associated accounts derived, and the sender's
   * account required to exist.
   */
  function SendInstructions(wallet: Address, tokenAddress: string, amount: Num, recipientAddress: string,
                            crypto: Crypto, chain: Chain): (r: Result<seq<Instruction>, Error>)
    ensures !ValidKey(crypto, Trim(tokenAddress)) ==> r == Failure(KeyError(Trim(tokenAddress)))
    ensures ValidKey(crypto, Trim(tokenAddress)) && !ValidKey(crypto, Trim(recipientAddress)) ==>
      r == Failure(KeyError(Trim(recipientAddress)))
    ensures ValidKey(crypto, Trim(tokenAddress)) && ValidKey(crypto, Trim(recipientAddress)) ==>
      var mint, recipient := Address(Trim(tokenAddress)), Address(Trim(recipientAddress));
      var decimals := GetMint(chain, mint, Token2022Program);
      && (decimals.Failure? ==> r == Failure(decimals.error))
      && (decimals.Success? && !IsPositive(amount) ==> r == Failure(Thrown(NotPositiveText)))
      && (decimals.Success? && IsPositive(amount) ==>
            var senderAta := crypto.associatedAddress(mint, wallet, Token2022Program);
            var recipientAta := crypto.associatedAddress(mint, recipient, Token2022Program);
            && (!crypto.onCurve(wallet) || !crypto.onCurve(recipient) ==> r == Failure(TokenOwnerOffCurve))
            && (crypto.onCurve(wallet) && crypto.onCurve(recipient) ==>
                  && (senderAta !in chain.accounts ==> r == Failure(Thrown(NoSenderAccountText)))
                  && (senderAta in chain.accounts ==>
                        r == Success(SendSequence(wallet, mint, recipient, senderAta, recipientAta,
                                                  recipientAta in chain.accounts,
                                                  BaseUnits(amount.value, decimals.value))))))
  {
    var mint :- ParsePublicKey(crypto, Trim(tokenAddress));
    var recipient :- ParsePublicKey(crypto, Trim(recipientAddress));
    var decimals :- GetMint(chain, mint, Token2022Program);
    if !IsPositive(amount) then Failure(Thrown(NotPositiveText))
    else
      var units := BaseUnits(amount.value, decimals);
      var senderAta :- AssociatedTokenAddress(crypto, mint, wallet, Token2022Program);
      var recipientAta :- AssociatedTokenAddress(crypto, mint, recipient, Token2022Program);
      if !AccountExists(chain, senderAta) then Failure(Thrown(NoSenderAccountText))
      else Success(SendSequence(wallet, mint, recipient, senderAta, recipientAta,
                                AccountExists(chain, recipientAta), units))
  }

  /**
   * A successful plan moves the amount, rounded down to base units, from the
   * wallet's Token-2022 account to the recipient's, creating the latter
   * first exactly when it does not exist; every instruction goes to the
   * Token-2022 or the associated-token program.
   */
  lemma SendPlanShape(wallet: Address, tokenAddress: string, amount: Num, recipientAddress: string,
                      crypto: Crypto, chain: Chain)
    requires SendInstructions(wallet, tokenAddress, amount, recipientAddress, crypto, chain).Success?
    ensures var ixs := SendInstructions(wallet, tokenAddress, amount, recipientAddress, crypto, chain).value;
      var mint, recipient := Address(Trim(tokenAddress)), Address(Trim(recipientAddress));
      var senderAta := crypto.associatedAddress(mint, wallet, Token2022Program);
      var recipientAta := crypto.associatedAddress(mint, recipient, Token2022Program);
      && mint in chain.accounts && chain.accounts[mint].Mint? && chain.accounts[mint].program == Token2022Program
      && IsPositive(amount) && senderAta in chain.accounts
      && (|ixs| == 1 || |ixs| == 2)
      && (|ixs| == 2 <==> recipientAta !in chain.accounts)
      && (|ixs| == 2 ==> ixs[0] == CreateAssociatedTokenAccount(wallet, recipientAta, recipient, mint,
                                                                 Token2022Program, AssociatedTokenProgram))
      && ixs[|ixs| - 1] == Transfer(senderAta, recipientAta, wallet,
                                    BaseUnits(amount.value, chain.accounts[mint].decimals), [], Token2022Program)
      && (forall i :: 0 <= i < |ixs| ==> ProgramOf(ixs[i]) in {Token2022Program, AssociatedTokenProgram})
  {
    var mint, recipient := Address(Trim(tokenAddress)), Address(Trim(recipientAddress));
    assert ValidKey(crypto, Trim(tokenAddress)) && ValidKey(crypto, Trim(recipientAddress));
    assert GetMint(chain, mint, Token2022Program).Success?;
  }

  /**
   * White space typed around either address is ignored: `trim` is applied
   * before `new PublicKey`.
   */
  lemma PaddingIgnored(wallet: Address, pre: string, tokenAddress: string, post: string, amount: Num,
                       pre': string, recipientAddress: string, post': string, crypto: Crypto, chain: Chain)
    requires AllSpace(pre) && AllSpace(post) && AllSpace(pre') && AllSpace(post')
    ensures SendInstructions(wallet, pre + tokenAddress + post, amount, pre' + recipientAddress + post', crypto, chain)
         == SendInstructions(wallet, tokenAddress, amount, recipientAddress, crypto, chain)
  {
    TrimIgnoresPadding(pre, tokenAddress, post);
    TrimIgnoresPadding(pre', recipientAddress, post');
  }

  /**
   * The amount is checked right after the mint is read, before any token
   * account is looked at: an amount that is not a positive number fails the
   * same way whatever accounts the chain holds besides the mint.
   */
  lemma AmountCheckedBeforeAccounts(wallet: Address, tokenAddress: string, amount: Num, recipientAddress: string,
                                    crypto: Crypto, chain: Chain, other: Chain)
    requires !IsPositive(amount)
    requires ValidKey(crypto, Trim(tokenAddress)) && ValidKey(crypto, Trim(recipientAddress))
    requires GetMint(chain, Address(Trim(tokenAddress)), Token2022Program).Success?
    requires GetMint(other, Address(Trim(tokenAddress)), Token2022Program).Success?
    ensures SendInstructions(wallet, tokenAddress, amount, recipientAddress, crypto, chain)
         == SendInstructions(wallet, tokenAddress, amount, recipientAddress, crypto, other)
         == Failure(Thrown(NotPositiveText))
  {
  }

  /** The state after a transfer: the amount leaves the sender's account and reaches the recipient's. */
  function Sent(st: State, mint: Address, recipient: Address, senderAta: Address, recipientAta: Address,
                amount: int): State
    requires senderAta in st && st[senderAta].TokenAccount?
  {
    if senderAta == recipientAta then st
    else
      var before := if recipientAta in st && st[recipientAta].TokenAccount? then st[recipientAta].balance else 0;
      st[senderAta := st[senderAta].(balance := st[senderAta].balance - amount)]
        [recipientAta := TokenAccount(mint, recipient, before + amount, Token2022Program)]
  }

  lemma SequenceLands(crypto: Crypto, st: State, wallet: Address, mint: Address, recipient: Address, amount: int)
    requires mint in st && st[mint].Mint? && st[mint].program == Token2022Program
    requires var senderAta := crypto.associatedAddress(mint, wallet, Token2022Program);
      && senderAta in st && st[senderAta].TokenAccount?
      && st[senderAta] == TokenAccount(mint, wallet, st[senderAta].balance, Token2022Program)
      && 0 <= amount <= st[senderAta].balance
    requires var recipientAta := crypto.associatedAddress(mint, recipient, Token2022Program);
      recipientAta in st ==>
        st[recipientAta].TokenAccount?
        && st[recipientAta] == TokenAccount(mint, recipient, st[recipientAta].balance, Token2022Program)
    ensures var senderAta := crypto.associatedAddress(mint, wallet, Token2022Program);
      var recipientAta := crypto.associatedAddress(mint, recipient, Token2022Program);
      Ledger.Execute(crypto, st, SendSequence(wallet, mint, recipient, senderAta, recipientAta, recipientAta in st,
                                              amount))
        == Some(Sent(st, mint, recipient, senderAta, recipientAta, amount))
  {
    var senderAta := crypto.associatedAddress(mint, wallet, Token2022Program);
    var recipientAta := crypto.associatedAddress(mint, recipient, Token2022Program);
    var ixs := SendSequence(wallet, mint, recipient, senderAta, recipientAta, recipientAta in st, amount);
    var transfer := Transfer(senderAta, recipientAta, wallet, amount, [], Token2022Program);
    if recipientAta in st {
      assert ixs == [transfer] && ixs[1..] == [];
      if senderAta == recipientAta {
        assert Ledger.Step(crypto, st, transfer) == Some(st);
      } else {
        var after := st[senderAta := st[senderAta].(balance := st[senderAta].balance - amount)]
                       [recipientAta := st[recipientAta].(balance := st[recipientAta].balance + amount)];
        assert Ledger.Step(crypto, st, transfer) == Some(after);
        assert after == Sent(st, mint, recipient, senderAta, recipientAta, amount);
      }
    } else {
      var create := CreateAssociatedTokenAccount(wallet, recipientAta, recipient, mint, Token2022Program,
                                                 AssociatedTokenProgram);
      assert ixs == [create, transfer];
      var s1 := st[recipientAta := TokenAccount(mint, recipient, 0, Token2022Program)];
      assert Ledger.Step(crypto, st, create) == Some(s1);
      assert senderAta != recipientAta;
      var s2 := s1[senderAta := s1[senderAta].(balance := s1[senderAta].balance - amount)]
                  [recipientAta := s1[recipientAta].(balance := s1[recipientAta].balance + amount)];
      assert Ledger.Step(crypto, s1, transfer) == Some(s2);
      assert s2 == Sent(st, mint, recipient, senderAta, recipientAta, amount);
      assert ixs[1..] == [transfer] && ixs[1..][1..] == [];
      calc {
        Ledger.Execute(crypto, st, ixs);
        Ledger.Execute(crypto, s1, ixs[1..]);
        Ledger.Execute(crypto, s2, []);
      }
    }
  }

  /**
   * When the wallet's account holds at least the amount and any existing
   * account at the recipient's derived address is the recipient's account
   * for this mint, the assembled transaction lands and moves exactly the
   * rounded-down amount.
   */
  lemma SendLands(wallet: Address, tokenAddress: string, amount: Num, recipientAddress: string,
                  crypto: Crypto, chain: Chain)
    requires SendInstructions(wallet, tokenAddress, amount, recipientAddress, crypto, chain).Success?
    requires var mint := Address(Trim(tokenAddress));
      var senderAta := crypto.associatedAddress(mint, wallet, Token2022Program);
      && senderAta in chain.accounts && chain.accounts[senderAta].TokenAccount?
      && chain.accounts[senderAta] == TokenAccount(mint, wallet, chain.accounts[senderAta].balance, Token2022Program)
      && mint in chain.accounts && chain.accounts[mint].Mint?
      && BaseUnits(amount.value, chain.accounts[mint].decimals) <= chain.accounts[senderAta].balance
    requires var mint, recipient := Address(Trim(tokenAddress)), Address(Trim(recipientAddress));
      var recipientAta := crypto.associatedAddress(mint, recipient, Token2022Program);
      recipientAta in chain.accounts ==>
        chain.accounts[recipientAta].TokenAccount?
        && chain.accounts[recipientAta] ==
             TokenAccount(mint, recipient, chain.accounts[recipientAta].balance, Token2022Program)
    ensures var mint, recipient := Address(Trim(tokenAddress)), Address(Trim(recipientAddress));
      var senderAta := crypto.associatedAddress(mint, wallet, Token2022Program);
      var recipientAta := crypto.associatedAddress(mint, recipient, Token2022Program);
      Ledger.Execute(crypto, chain.accounts,
                     SendInstructions(wallet, tokenAddress, amount, recipientAddress, crypto, chain).value)
        == Some(Sent(chain.accounts, mint, recipient, senderAta, recipientAta,
                     BaseUnits(amount.value, chain.accounts[mint].decimals)))
  {
    SendPlanShape(wallet, tokenAddress, amount, recipientAddress, crypto, chain);
    var mint, recipient := Address(Trim(tokenAddress)), Address(Trim(recipientAddress));
    var senderAta := crypto.associatedAddress(mint, wallet, Token2022Program);
    var recipientAta := crypto.associatedAddress(mint, recipient, Token2022Program);
    var units := BaseUnits(amount.value, chain.accounts[mint].decimals);
    assert SendInstructions(wallet, tokenAddress, amount, recipientAddress, crypto, chain).value
        == SendSequence(wallet, mint, recipient, senderAta, recipientAta, recipientAta in chain.accounts, units);
    SequenceLands(crypto, chain.accounts, wallet, mint, recipient, units);
  }

  /** Asking for more than the wallet's account holds gets the transaction rejected: nothing moves. */
  lemma OverdraftRejected(wallet: Address, tokenAddress: string, amount: Num, recipientAddress: string,
                          crypto: Crypto, chain: Chain)
    requires SendInstructions(wallet, tokenAddress, amount, recipientAddress, crypto, chain).Success?
    requires var mint := Address(Trim(tokenAddress));
      var senderAta := crypto.associatedAddress(mint, wallet, Token2022Program);
      && mint in chain.accounts && chain.accounts[mint].Mint?
      && chain.accounts[senderAta].TokenAccount?
      && BaseUnits(amount.value, chain.accounts[mint].decimals) > chain.accounts[senderAta].balance
    ensures Ledger.Execute(crypto, chain.accounts,
                           SendInstructions(wallet, tokenAddress, amount, recipientAddress, crypto, chain).value) == None
  {
    SendPlanShape(wallet, tokenAddress, amount, recipientAddress, crypto, chain);
    var mint, recipient := Address(Trim(tokenAddress)), Address(Trim(recipientAddress));
    var ixs := SendInstructions(wallet, tokenAddress, amount, recipientAddress, crypto, chain).value;
    var senderAta := crypto.associatedAddress(mint, wallet, Token2022Program);
    var recipientAta := crypto.associatedAddress(mint, recipient, Token2022Program);
    var st := chain.accounts;
    if |ixs| == 1 {
      assert Ledger.Step(crypto, st, ixs[0]) == None;
    } else {
      var s1 := st[recipientAta := TokenAccount(mint, recipient, 0, Token2022Program)];
      assert senderAta != recipientAta;
      match Ledger.Step(crypto, st, ixs[0])
      case None =>
      case Some(next) =>
        assert next == s1;
        assert Ledger.Step(crypto, s1, ixs[1]) == None;
        assert ixs[1..] == [ixs[1]] && ixs[1..][1..] == [];
    }
  }

  /**
   * A token made by the "Create Token" form belongs to the classic token
   * program, while this form reads mints under Token-2022: sending it fails
   * at `getMint`, and since that error has no message the toast reads
   * "Unknown error".
   */
  lemma CreatedTokenCannotBeSent(wallet: Address, creator: Address, mintKey: Address, ata: Address, decimals: nat,
                                 supply: int, st: State, amount: Num, recipientAddress: string,
                                 crypto: Crypto, chain: Chain)
    requires chain.accounts == CreateToken.Created(st, creator, mintKey, ata, decimals, supply)
    requires ata != mintKey
    requires ValidKey(crypto, mintKey.base58) && ValidKey(crypto, Trim(recipientAddress))
    requires Trim(mintKey.base58) == mintKey.base58
    ensures SendInstructions(wallet, mintKey.base58, amount, recipientAddress, crypto, chain)
         == Failure(TokenInvalidAccountOwner)
    ensures FailureText(TokenInvalidAccountOwner) == FailurePrefix + "Unknown error"
  {
    assert chain.accounts[mintKey] == Mint(decimals, Some(creator), supply, TokenProgram);
    assert Address(mintKey.base58) == mintKey;
  }

  /**
   * A mint address with a character outside the base58 alphabet is refused
   * by the decoder before its length is looked at, and the toast quotes the
   * decoder's message.
   */
  lemma NonBase58MintToast(wallet: Address, amount: Num, recipientAddress: string, crypto: Crypto, chain: Chain)
    ensures SendInstructions(wallet, "0abc", amount, recipientAddress, crypto, chain) == Failure(NonBase58Character)
    ensures FailureText(NonBase58Character) == FailurePrefix + "Non-base58 character"
  {
    var t := "0abc";
    assert TrimStart(t) == t by { assert !IsSpace(t[0]); }
    assert TrimEnd(t) == t by { assert !IsSpace(t[|t| - 1]); }
    assert !IsBase58Char(t[0]);
  }

  /**
   * The transaction `handleSubmit` builds: the instructions in order, the
   * wallet as fee payer and the latest blockhash; nobody else signs.
   */
  method AssembleSend(wallet: Address, mint: Address, recipient: Address, senderAta: Address, recipientAta: Address,
                      recipientExists: bool, amount: int, blockhash: string) returns (transaction: Transaction)
    ensures fresh(transaction)
    ensures transaction.Record()
         == TxRecord(SendSequence(wallet, mint, recipient, senderAta, recipientAta, recipientExists, amount),
                     Some(wallet), Some(blockhash), [])
  {
    transaction := new Transaction();
    if !recipientExists {
      transaction.Add(CreateAssociatedTokenAccount(wallet, recipientAta, recipient, mint, Token2022Program,
                                                   AssociatedTokenProgram));
    }
    transaction.Add(Transfer(senderAta, recipientAta, wallet, amount, [], Token2022Program));
    transaction.feePayer := Some(wallet);
    transaction.recentBlockhash := Some(blockhash);
  }

  /** The component: its form state and the submit handler. */
  class SendTokenForm {
    var formData: FormData
    var loading: bool

    constructor ()
      ensures formData == Blank && !loading
    {
      formData, loading := Blank, false;
    }

    /**
     * `handleSubmit`. `chain` is what the RPC node answers; `delivery` is
     * what becomes of the transaction once it is handed to the wallet.
     */
    method HandleSubmit(wallet: Wallet, crypto: Crypto, chain: Chain, delivery: Delivery) returns (toast: Toast)
      modifies this, wallet
      ensures wallet.connected == old(wallet.connected) && wallet.publicKey == old(wallet.publicKey)
      ensures wallet.canSend == old(wallet.canSend)
      ensures !old(wallet.Ready()) ==>
        toast == ToastError(NotConnectedText) && wallet.requests == old(wallet.requests)
        && formData == old(formData) && loading == old(loading)
      ensures old(wallet.Ready()) ==> !loading
      ensures old(wallet.Ready()) ==>
        var plan := SendInstructions(old(wallet.publicKey).value, old(formData).tokenAddress,
                                     ToNumber(old(formData).amount), old(formData).recipientAddress, crypto, chain);
        && (plan.Failure? ==>
              wallet.requests == old(wallet.requests) && formData == old(formData)
              && toast == ToastError(FailureText(plan.error)))
        && (plan.Success? ==>
              wallet.requests == old(wallet.requests) +
                [TxRecord(plan.value, old(wallet.publicKey), Some(chain.latestBlockhash), [])])
        && (plan.Success? && delivery.Confirmed? ==> formData == Blank && toast == ToastSuccess(SentText))
        && (plan.Success? && !delivery.Confirmed? ==>
              formData == old(formData) && toast == ToastError(FailureText(WalletError(delivery.reason))))
    {
      if !wallet.Ready() {
        toast := ToastError(NotConnectedText);
        return;
      }
      loading := true;
      var publicKey := wallet.publicKey.value;
      ghost var plan := SendInstructions(publicKey, formData.tokenAddress, ToNumber(formData.amount),
                                         formData.recipientAddress, crypto, chain);
      var mint := ParsePublicKey(crypto, Trim(formData.tokenAddress));
      if mint.Failure? {
        toast, loading := ToastError(FailureText(mint.error)), false;
        return;
      }
      var recipient := ParsePublicKey(crypto, Trim(formData.recipientAddress));
      if recipient.Failure? {
        toast, loading := ToastError(FailureText(recipient.error)), false;
        return;
      }
      var decimals := GetMint(chain, mint.value, Token2022Program);
      if decimals.Failure? {
        toast, loading := ToastError(FailureText(decimals.error)), false;
        return;
      }
      var parsedAmount := ToNumber(formData.amount);
      if !IsPositive(parsedAmount) {
        toast, loading := ToastError(FailureText(Thrown(NotPositiveText))), false;
        return;
      }
      var amount := BaseUnits(parsedAmount.value, decimals.value);
      var senderAta := AssociatedTokenAddress(crypto, mint.value, publicKey, Token2022Program);
      if senderAta.Failure? {
        toast, loading := ToastError(FailureText(senderAta.error)), false;
        return;
      }
      var recipientAta := AssociatedTokenAddress(crypto, mint.value, recipient.value, Token2022Program);
      if recipientAta.Failure? {
        toast, loading := ToastError(FailureText(recipientAta.error)), false;
        return;
      }
      if !AccountExists(chain, senderAta.value) {
        toast, loading := ToastError(FailureText(Thrown(NoSenderAccountText))), false;
        return;
      }
      var recipientExists := AccountExists(chain, recipientAta.value);
      var transaction := AssembleSend(publicKey, mint.value, recipient.value, senderAta.value, recipientAta.value,
                                      recipientExists, amount, chain.latestBlockhash);
      var signature := wallet.SendTransaction(transaction, delivery);
      if signature.Failure? {
        toast, loading := ToastError(FailureText(signature.error)), false;
        return;
      }
      var confirmation := ConfirmTransaction(delivery);
      if confirmation.Failure? {
        toast, loading := ToastError(FailureText(confirmation.error)), false;
        return;
      }
      toast := ToastSuccess(SentText);
      formData := Blank;
      loading := false;
    }
  }
}
