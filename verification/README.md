# Solana token dashboard: a Dafny model of its five dashboard components

This project models the dashboard of a small Solana token manager, written in
TypeScript and React over `@solana/web3.js` and `@solana/spl-token`. It covers
five components:

- **Create Token**: allocates a fresh mint account and initialises it, creates
  the creator's associated token account, and mints the initial supply into
  it. All of this is one transaction, co-signed by the generated mint key.
- **Mint Tokens**: mints more supply of an existing classic-token mint into a
  recipient's associated account, creating that account first when it is
  missing.
- **Send Tokens**: a Token-2022 transfer from the wallet's associated account
  to the recipient's, creating the recipient's account first when it is
  missing.
- **Transaction History**: takes the wallet's ten newest signatures, classifies
  each as create, mint, send or receive, and labels each with an amount, a
  token and a status.
- **Wallet Info**: the shortened address display.

The model has three layers.

- **The JavaScript conversions** the components rely on: `parseInt`,
  `Number`, `BigInt`, `String.prototype.trim` and `slice` (modules `JsString`
  and `JsNumber`). Numbers are exact reals. Scaling by `10 ** e` is
  `TimesPow10`, applied one factor of ten at a time.
- **The SDK and chain surface**, in module `Solana`:
  - addresses, programs and the five instruction builders;
  - `new PublicKey` as the base58 alphabet check followed by an
    uninterpreted length check;
  - the rest of the key arithmetic (`isOnCurve`, associated-address
    derivation) as uninterpreted functions;
  - the RPC answers as a `Chain` value;
  - `getMint` with the SDK's error order;
  - a `Transaction` class filled in place, and a `Wallet` class that records
    every transaction it is asked to send.
- **The components themselves**.
  - Each form's `handleSubmit` is an imperative method of a class holding the
    form state and the loading flag.
  - It is proved against a pure planning function: `CreateInstructions`,
    `MintInstructions` or `SendInstructions`. The planning function gives the
    instructions the handler adds, or the exception it raises first.
  - The history loop is a `while` loop proved equal to the recursive `Entries`.

A separate module `Ledger` gives a reference semantics of the system, token
and associated-token programs. Against it, the lemmas prove:

- each assembled sequence lands and leaves the intended balances;
- its order matters;
- a non-authority mint or an overdraft is rejected as a whole.

Behaviour of the code a reader may not expect, modelled as written:

- The Mint form neither rounds the amount nor checks that it is positive. A
  fractional base unit makes `BigInt` throw.
- The Create form's `handleSubmit` does not check the supply or decimals it
  parses (the markup's `min`, `max` and `required` constraints are not
  modelled), and it never stores the name, symbol, description or image.
- The Send form reads mints under Token-2022, while Create and Mint use the
  classic token program. A token created here therefore cannot be sent here:
  see `SendToken.CreatedTokenCannotBeSent`.
- `confirmTransaction`'s returned `err` is never looked at. A transaction
  that fails on chain still gets the success toast.

## Model

| member | source | states |
|---|---|---|
| JsString.TrimStartSpec | frontend/components/dashboard/SendTokenForm.tsx:46-47 | removing leading white space returns a suffix of the input that is empty or starts with a non-space, and everything cut off is white space |
| JsString.TrimEndSpec | frontend/components/dashboard/SendTokenForm.tsx:46-47 | removing trailing white space returns a prefix that is empty or ends with a non-space, and everything cut off is white space |
| JsString.TrimSpec | frontend/components/dashboard/SendTokenForm.tsx:46-47 | `trim` returns a contiguous part of the input, with only white space on either side, that neither starts nor ends with white space |
| JsString.TrimStartSkipsSpace | frontend/components/dashboard/SendTokenForm.tsx:46-47 | leading white space added in front does not change the left-trimmed result |
| JsString.TrimEndSkipsSpace | frontend/components/dashboard/SendTokenForm.tsx:46-47 | trailing white space added behind does not change the right-trimmed result |
| JsString.TrimStartAppend | frontend/components/dashboard/SendTokenForm.tsx:46-47 | for a string that is not all white space, left-trimming commutes with appending a suffix |
| JsString.TrimIgnoresPadding | frontend/components/dashboard/SendTokenForm.tsx:46-47 | any white space around a string leaves its `trim` unchanged |
| JsString.IdeographicSpaceTrimmed | frontend/components/dashboard/SendTokenForm.tsx:46-47 | `trim` also removes Unicode space separators and line separators beyond Latin-1, such as U+3000 and U+2028 |
| JsString.Slice | frontend/components/dashboard/WalletInfo.tsx:45 | `slice` returns a contiguous part of the string, no longer than it; with in-range arguments it is exactly `s[start..end]`, and a negative start with no end gives that many characters from the end |
| JsString.RelativeIndex | frontend/components/dashboard/WalletInfo.tsx:45 | a `slice` argument is clamped into the string; a negative one counts back from the end |
| JsNumber.ParseInt | frontend/components/dashboard/CreateTokenForm.tsx:63-64 | `parseInt` is NaN exactly when, after leading white space and an optional sign, no digit follows; a negative result needs a minus sign |
| JsNumber.UnsignedDecimal | frontend/components/dashboard/MintTokenForm.tsx:66 | an unsigned decimal literal never reads as a negative number |
| JsNumber.ToNumber | frontend/components/dashboard/MintTokenForm.tsx:66 | `Number` of an empty or all-white-space string is 0, and a negative result needs a leading minus sign |
| JsNumber.StringToBigInt | frontend/components/dashboard/TransactionHistory.tsx:75-76 | `BigInt` of an empty or all-white-space string is 0, and a negative result needs a leading minus sign |
| JsNumber.BigIntAgreesWithNumber | frontend/components/dashboard/TransactionHistory.tsx:75-76 | every string `BigInt` accepts is read by `Number` as the same value |
| JsNumber.DigitRun | frontend/components/dashboard/CreateTokenForm.tsx:63-64 | the digit run read by `parseInt` is all digits and is followed by a non-digit or the end |
| JsNumber.DigitRunOfDigits | frontend/components/dashboard/CreateTokenForm.tsx:63-64 | a digit string followed by a non-digit is read up to exactly its length |
| JsNumber.ParseIntStopsAtNonDigit | frontend/components/dashboard/CreateTokenForm.tsx:63-64 | `parseInt` of digits followed by other text is the value of the digits |
| JsNumber.ToNumberOfDigits | frontend/components/dashboard/MintTokenForm.tsx:66 | `Number` of a plain digit string is the integer it spells |
| JsNumber.UnsignedDecimalOfDigits | frontend/components/dashboard/MintTokenForm.tsx:66 | a decimal literal without fraction or exponent is its integer value |
| JsNumber.Mantissa | frontend/components/dashboard/MintTokenForm.tsx:66 | the mantissa of a decimal literal is never negative |
| JsNumber.ScaledByExponent | frontend/components/dashboard/MintTokenForm.tsx:66 | an exponent part keeps a non-negative mantissa non-negative |
| JsNumber.ExponentPartOf | frontend/components/dashboard/MintTokenForm.tsx:66 | `e12` and `e-3` read as the signed exponent their digits spell |
| JsNumber.ToNumberOfUnsigned | frontend/components/dashboard/MintTokenForm.tsx:66 | a literal with no white space around it and no sign is read as an unsigned decimal |
| JsNumber.ToNumberOfDecimal | frontend/components/dashboard/MintTokenForm.tsx:66 | `Number("10.25")` and the like: the integer part plus the fraction digits over ten to the number of fraction digits |
| JsNumber.ToNumberOfDecimalExponent | frontend/components/dashboard/MintTokenForm.tsx:66 | `Number("1.25e3")`, `Number("5.e-1")` and the like: that mantissa scaled by the signed exponent |
| JsNumber.ToNumberOfIntegerExponent | frontend/components/dashboard/MintTokenForm.tsx:66 | `Number("1e3")`, `Number("25e-2")` and the like: the integer scaled by the signed exponent |
| JsNumber.TimesPow10Sum | frontend/components/dashboard/MintTokenForm.tsx:66 | scaling up by a power of ten distributes over a sum |
| JsNumber.MantissaTimesPow10 | frontend/components/dashboard/MintTokenForm.tsx:66 | the mantissa of `ds.fs` scaled up by the fraction length is the integer the digits spell together |
| JsNumber.MantissaScaled | frontend/components/dashboard/MintTokenForm.tsx:66 | with no more fraction digits than places, scaling `ds.fs` up gives exactly the padded integer |
| JsNumber.NumberToBigInt | frontend/components/dashboard/CreateTokenForm.tsx:65 | `BigInt` of a number succeeds exactly on finite integral values, and then returns that value |
| JsNumber.IntegerToBigInt | frontend/components/dashboard/CreateTokenForm.tsx:65 | `BigInt` of a number equal to an integer is that integer |
| JsNumber.TimesPow10Step | frontend/components/dashboard/MintTokenForm.tsx:66 | raising the exponent by one multiplies by ten, for negative exponents too |
| JsNumber.TimesPow10Add | frontend/components/dashboard/TransactionHistory.tsx:96 | scaling twice adds the exponents, so dividing by `10 ** d` and multiplying back gives the original |
| JsNumber.TimesPow10Sign | frontend/components/dashboard/SendTokenForm.tsx:58 | scaling by a power of ten keeps the sign |
| JsNumber.TimesPow10OfInteger | frontend/components/dashboard/CreateTokenForm.tsx:65 | an integer times `10 ** d` is the integer `a * 10^d` |
| JsNumber.StringToBigIntOfDigits | frontend/components/dashboard/TransactionHistory.tsx:75-76 | `BigInt` of a plain digit string is its value |
| Solana.ParsePublicKey | frontend/components/dashboard/MintTokenForm.tsx:50-51 | `new PublicKey` succeeds exactly on base58 text that decodes to a key, and keeps the text; a character outside the base58 alphabet fails first, with its own error, and a wrong decoded length fails next |
| Solana.Message | frontend/components/dashboard/SendTokenForm.tsx:128 | an error's message is empty exactly for the token SDK's own errors (or an empty thrown text); thrown and wallet errors carry their text |
| Solana.AssociatedTokenAddress | frontend/components/dashboard/MintTokenForm.tsx:57-63 | derivation succeeds exactly for an on-curve owner and yields the derived address |
| Solana.GetMint | frontend/components/dashboard/MintTokenForm.tsx:54-55 | `getMint` succeeds exactly on a mint account owned by the given program, returns its decimals, and a missing account is `TokenAccountNotFound` |
| Solana.ConfirmTransaction | frontend/components/dashboard/CreateTokenForm.tsx:115 | confirming succeeds exactly when the network confirms, whatever the on-chain outcome |
| Solana.Transaction.constructor | frontend/components/dashboard/MintTokenForm.tsx:68 | a new transaction has no instructions, no fee payer, no blockhash and no signers |
| Solana.Transaction.Add | frontend/components/dashboard/CreateTokenForm.tsx:76-106 | `add` appends the instruction and changes nothing else |
| Solana.Transaction.PartialSign | frontend/components/dashboard/CreateTokenForm.tsx:113 | `partialSign` appends the signer and changes nothing else |
| Solana.Wallet.constructor | frontend/components/dashboard/CreateTokenForm.tsx:32 | the wallet view starts with the given connection state and no requests |
| Solana.Wallet.SendTransaction | frontend/components/dashboard/CreateTokenForm.tsx:114 | the transaction's content is recorded; a rejection is an error, otherwise the signature is returned |
| CreateToken.MintAmount | frontend/components/dashboard/CreateTokenForm.tsx:63-65 | `BigInt(totalSupply * 10 ** decimals)` succeeds exactly when both fields parsed and the product is integral, and equals that product |
| CreateToken.MintAmountScales | frontend/components/dashboard/CreateTokenForm.tsx:65 | with non-negative decimals, the minted amount is exactly `supply * 10^decimals` |
| CreateToken.CreateInstructions | frontend/components/dashboard/CreateTokenForm.tsx:62-106 | the plan succeeds exactly when the amount converts, the wallet is on curve and the decimals fit a byte; a bad amount is the `BigInt` error, then an off-curve wallet is `TokenOwnerOffCurve`, then an oversized decimals is `ByteOutOfRange` |
| CreateToken.CreatePlanShape | frontend/components/dashboard/CreateTokenForm.tsx:76-106 | a successful plan has the four instructions: the mint-sized rent-exempt account, the initialisation with the typed decimals and the wallet as sole authority, the wallet's associated account, and the whole supply minted into it |
| CreateToken.PlanOnSuccess | frontend/components/dashboard/CreateTokenForm.tsx:65-106 | once the amount, the derived account and the decimals byte are all valid, the plan is the four-instruction sequence |
| CreateToken.BadSupplyFailsBeforeAnyQuery | frontend/components/dashboard/CreateTokenForm.tsx:63-65 | a supply or decimals that `parseInt` rejects fails with the `BigInt` error on any chain |
| CreateToken.SequenceLands | frontend/components/dashboard/CreateTokenForm.tsx:76-106 | on unused keys, the four instructions leave a new mint whose whole supply sits in the creator's account |
| CreateToken.CreateLands | frontend/components/dashboard/CreateTokenForm.tsx:62-115 | the planned transaction lands and gives the wallet `supply * 10^decimals` of a mint it controls |
| CreateToken.CreateOrderMatters | frontend/components/dashboard/CreateTokenForm.tsx:76-91 | initialising the mint before allocating its account is rejected |
| CreateToken.AssembleCreation | frontend/components/dashboard/CreateTokenForm.tsx:76-113 | the built transaction holds the four instructions, the wallet as fee payer, the latest blockhash and the mint key's signature |
| CreateToken.CreateTokenForm.constructor | frontend/components/dashboard/CreateTokenForm.tsx:33-41 | the form starts blank with decimals "9" and not loading |
| CreateToken.CreateTokenForm.HandleSubmit | frontend/components/dashboard/CreateTokenForm.tsx:50-134 | without a ready wallet: the error toast and nothing else; otherwise the planned transaction is sent exactly when the plan succeeds; success resets the form with the mint's address in the toast; any failure keeps the form and shows the failure toast; loading ends false |
| MintToken.MintedText | frontend/components/dashboard/MintTokenForm.tsx:92 | the success text is the prefix, the typed amount verbatim, and the suffix |
| MintToken.ScaledAmount | frontend/components/dashboard/MintTokenForm.tsx:66 | `BigInt(Number(amount) * 10 ** decimals)` succeeds exactly on finite amounts with an integral product, equals that product, and otherwise throws the `BigInt` error |
| MintToken.ScaledWhole | frontend/components/dashboard/MintTokenForm.tsx:66 | a whole number of tokens is minted as that many times `10^decimals` base units |
| MintToken.ScaledAmountOfDigits | frontend/components/dashboard/MintTokenForm.tsx:66 | an amount typed as plain digits is minted as its value times `10^decimals` |
| MintToken.ScaledDecimal | frontend/components/dashboard/MintTokenForm.tsx:66 | an amount typed as `ds.fs`, with no more fraction digits than the mint's decimals, is minted as its digits padded with zeros to the decimals |
| MintToken.TenAndAHalfAtTwoDecimals | frontend/components/dashboard/MintTokenForm.tsx:66 | "10.5" tokens of a two-decimal mint are 1050 base units |
| MintToken.HalfTokenOfWholeMintFails | frontend/components/dashboard/MintTokenForm.tsx:66 | "0.5" of a mint with no decimals throws: there is no rounding |
| MintToken.MintInstructions | frontend/components/dashboard/MintTokenForm.tsx:50-83 | in source order, the plan is: an invalid token address fails with its decoder error, then an invalid recipient; then `getMint`'s error; then an off-curve recipient; then the amount conversion; otherwise the create-if-missing plus mint sequence |
| MintToken.MintPlanShape | frontend/components/dashboard/MintTokenForm.tsx:54-83 | a successful plan is for a classic mint; it has one or two instructions, two exactly when the derived account is missing; the create comes first; the last mints the scaled amount with the wallet as authority |
| MintToken.UnknownMintFails | frontend/components/dashboard/MintTokenForm.tsx:54 | a mint account the chain does not know fails with `TokenAccountNotFound` |
| MintToken.SequenceLands | frontend/components/dashboard/MintTokenForm.tsx:68-83 | with the wallet as authority, the sequence raises the supply and the recipient's balance by the amount |
| MintToken.MintLands | frontend/components/dashboard/MintTokenForm.tsx:50-90 | the planned transaction lands and credits the recipient with exactly the minted amount |
| MintToken.NonAuthorityRejected | frontend/components/dashboard/MintTokenForm.tsx:81-83 | a wallet that is not the mint authority gets the whole transaction rejected |
| MintToken.AssembleMint | frontend/components/dashboard/MintTokenForm.tsx:68-87 | the built transaction holds the sequence, the wallet as fee payer and the latest blockhash, and no other signer |
| MintToken.MintTokenForm.constructor | frontend/components/dashboard/MintTokenForm.tsx:28-33 | the form starts blank and not loading |
| MintToken.MintTokenForm.HandleSubmit | frontend/components/dashboard/MintTokenForm.tsx:40-100 | without a ready wallet: the error toast only; otherwise the planned transaction is sent exactly when the plan succeeds; confirmation resets the form with the typed amount in the toast; any failure keeps the form; loading ends false |
| SendToken.FailureText | frontend/components/dashboard/SendTokenForm.tsx:128 | the toast shows the error's message, or "Unknown error" when the message is empty; the token SDK's errors always give "Unknown error", and a non-empty thrown or wallet text is shown as is |
| SendToken.BaseUnits | frontend/components/dashboard/SendTokenForm.tsx:58 | the base units are the scaled amount rounded down, and non-negative for a non-negative amount |
| SendToken.DustSendsNothing | frontend/components/dashboard/SendTokenForm.tsx:54-58 | a positive amount below one base unit is accepted as positive yet transfers zero |
| SendToken.SendInstructions | frontend/components/dashboard/SendTokenForm.tsx:46-111 | in source order, the plan is: invalid trimmed addresses with their decoder errors, the token address first; `getMint` under Token-2022; a non-positive amount; off-curve owners; a missing sender account; otherwise the create-if-missing plus transfer of the floored amount |
| SendToken.SendPlanShape | frontend/components/dashboard/SendTokenForm.tsx:50-111 | a successful plan is for a Token-2022 mint, a positive amount and an existing sender account; the create comes first exactly when the recipient's account is missing; the last transfers the floored amount; every instruction goes to Token-2022 or the associated-token program |
| SendToken.PaddingIgnored | frontend/components/dashboard/SendTokenForm.tsx:46-47 | white space typed around either address does not change the plan |
| SendToken.AmountCheckedBeforeAccounts | frontend/components/dashboard/SendTokenForm.tsx:50-57 | once the mint is read, a non-positive amount fails the same way on any chain |
| SendToken.SequenceLands | frontend/components/dashboard/SendTokenForm.tsx:87-111 | with enough balance, the sequence moves the amount from sender to recipient, and a self-transfer changes nothing |
| SendToken.SendLands | frontend/components/dashboard/SendTokenForm.tsx:46-118 | the planned transaction lands and moves exactly the floored amount |
| SendToken.OverdraftRejected | frontend/components/dashboard/SendTokenForm.tsx:102-111 | asking for more than the sender's balance gets the whole transaction rejected |
| SendToken.CreatedTokenCannotBeSent | frontend/components/dashboard/SendTokenForm.tsx:50 | a mint made by the Create form is a classic-token mint, so sending it fails at `getMint` and the toast says "Unknown error" |
| SendToken.NonBase58MintToast | frontend/components/dashboard/SendTokenForm.tsx:46 | a mint address such as "0abc" fails with the decoder's "Non-base58 character", and the toast quotes it |
| SendToken.AssembleSend | frontend/components/dashboard/SendTokenForm.tsx:78-115 | the built transaction holds the sequence, the wallet as fee payer and the latest blockhash, and no other signer |
| SendToken.SendTokenForm.constructor | frontend/components/dashboard/SendTokenForm.tsx:30-34 | the form starts blank and not loading |
| SendToken.SendTokenForm.HandleSubmit | frontend/components/dashboard/SendTokenForm.tsx:36-132 | without a ready wallet: the error toast only; otherwise the planned transaction is sent exactly when the plan succeeds; a failed plan or delivery toasts its message; confirmation resets the form; loading ends false |
| TransactionHistory.FindOwner | frontend/components/dashboard/TransactionHistory.tsx:71-72 | `find` returns a balance of the owner exactly when one exists, and it is the first one |
| TransactionHistory.AmountValue | frontend/components/dashboard/TransactionHistory.tsx:75-76 | an empty amount counts as zero; any failure is the `BigInt` syntax error |
| TransactionHistory.TransferDirection | frontend/components/dashboard/TransactionHistory.tsx:70-81 | a transfer is a send or a receive; a receive needs the owner's balance after it; the only failure is the `BigInt` syntax error |
| TransactionHistory.Classify | frontend/components/dashboard/TransactionHistory.tsx:54-81 | an `initializeMint` makes a creation; a failure or a receive needs a token transfer, and a failure is the `BigInt` syntax error |
| TransactionHistory.FirstWithAmount | frontend/components/dashboard/TransactionHistory.tsx:86 | `find` returns an instruction with a non-empty amount exactly when one exists, and it is the first one |
| TransactionHistory.Scale | frontend/components/dashboard/TransactionHistory.tsx:96 | the shown amount is finite exactly when the raw one is, and times `10^decimals` it gives back the raw amount |
| TransactionHistory.AmountAndToken | frontend/components/dashboard/TransactionHistory.tsx:83-104 | with no amount: "0" and "SPL"; with an unreadable or absent mint: the raw text and "SPL"; otherwise the scaled number and the mint's first four characters followed by "..." |
| TransactionHistory.StatusOf | frontend/components/dashboard/TransactionHistory.tsx:114 | the status is never pending, and is failed exactly when the signature has an error |
| TransactionHistory.EntryFor | frontend/components/dashboard/TransactionHistory.tsx:49-116 | a missing transaction is skipped; otherwise the entry exists exactly when classification succeeds, and carries the signature, the category, the amount and token, and the status |
| TransactionHistory.Entries | frontend/components/dashboard/TransactionHistory.tsx:43-117 | at most one entry per signature; with the node's answers given, the only possible failure is the `BigInt` syntax error |
| TransactionHistory.RecentSignatures | frontend/components/dashboard/TransactionHistory.tsx:39-41 | the fetched signatures are the newest ones, at most ten, and exactly ten when there are that many |
| TransactionHistory.EntriesFollowSignatures | frontend/components/dashboard/TransactionHistory.tsx:45-116 | the entries correspond one for one, in order, to the signatures whose transaction was found, with their ids, hashes and statuses |
| TransactionHistory.AtMostTen | frontend/components/dashboard/TransactionHistory.tsx:39-41 | the view never holds more than ten entries |
| TransactionHistory.CreateWins | frontend/components/dashboard/TransactionHistory.tsx:66-67 | a transaction is a creation exactly when it has a token `initializeMint` |
| TransactionHistory.MintBeatsTransfer | frontend/components/dashboard/TransactionHistory.tsx:68-69 | a transaction is a mint exactly when it has a `mintTo` and no `initializeMint` |
| TransactionHistory.DefaultIsSend | frontend/components/dashboard/TransactionHistory.tsx:54-81 | without the three kinds it is a send; with only a transfer, the balances decide |
| TransactionHistory.DirectionByBalances | frontend/components/dashboard/TransactionHistory.tsx:74-77 | with both balances present, it is a receive exactly when the balance grew, and a send otherwise |
| TransactionHistory.DirectionWithoutBoth | frontend/components/dashboard/TransactionHistory.tsx:78-80 | with a balance missing, only an after-balance makes it a receive |
| TransactionHistory.HundredToHundredFifty | frontend/components/dashboard/TransactionHistory.tsx:74-77 | going from 100 to 150 is a receive, and from 150 to 100 a send |
| TransactionHistory.EmptyBeforeCountsAsZero | frontend/components/dashboard/TransactionHistory.tsx:75 | an empty before-amount counts as zero, so any positive after-amount is a receive |
| TransactionHistory.SameElementsSameKinds | frontend/components/dashboard/TransactionHistory.tsx:56-64 | the `some` tests depend only on the multiset of instructions |
| TransactionHistory.OrderIrrelevant | frontend/components/dashboard/TransactionHistory.tsx:54-81 | the category does not depend on instruction order |
| TransactionHistory.OthersAddNoKinds | frontend/components/dashboard/TransactionHistory.tsx:56-64 | instructions of other programs never satisfy the `some` tests |
| TransactionHistory.OtherProgramsIgnored | frontend/components/dashboard/TransactionHistory.tsx:54-81 | inserting other programs' instructions never changes the category |
| TransactionHistory.Token2022AmountShownRaw | frontend/components/dashboard/TransactionHistory.tsx:91-100 | an amount whose mint is a Token-2022 mint is shown raw under "SPL", because the classic `getMint` rejects it |
| TransactionHistory.EntriesPush | frontend/components/dashboard/TransactionHistory.tsx:106-116 | one more signature appends its entry, if any |
| TransactionHistory.EntriesStopAt | frontend/components/dashboard/TransactionHistory.tsx:75-76 | a transaction that cannot be classified fails the whole list |
| TransactionHistory.Categorize | frontend/components/dashboard/TransactionHistory.tsx:54-81 | the type starts as a send and is overwritten branch by branch, with the balance lookups and the `BigInt` comparison as statements; the result equals `Classify` |
| TransactionHistory.AmountOf | frontend/components/dashboard/TransactionHistory.tsx:83-104 | the step-by-step amount and token equal `AmountAndToken` |
| TransactionHistory.CollectEntries | frontend/components/dashboard/TransactionHistory.tsx:43-117 | the loop over the signatures yields exactly `Entries` |
| TransactionHistory.TransactionHistoryView.constructor | frontend/components/dashboard/TransactionHistory.tsx:30-31 | the view starts empty and not loading |
| TransactionHistory.TransactionHistoryView.FetchTransactions | frontend/components/dashboard/TransactionHistory.tsx:33-126 | without a connected key nothing changes; otherwise the entries become `Entries` of the newest ten signatures, or stay and the error toast shows; loading ends false |
| WalletInfo.FormatAddress | frontend/components/dashboard/WalletInfo.tsx:44-46 | the display is the first and last `min(6, n)` characters around "..."; 15 characters from six on; a short address appears twice |
| WalletInfo.EndsDisjointFromTwelve | frontend/components/dashboard/WalletInfo.tsx:44-46 | from twelve characters on, the two ends shown are disjoint parts of the address |
| WalletInfo.SameEndsSameDisplay | frontend/components/dashboard/WalletInfo.tsx:44-46 | addresses agreeing on their first and last six characters look the same |

## Left out

- IEEE-754 arithmetic. Numbers are exact reals, so rounding in `totalSupply * Math.pow(10, decimals)`, `Number(...) * 10 ** decimals` and the history's division, `Infinity`, and `-0` are not modelled.
- `Number` and `BigInt` are not modelled for the `0x`, `0o` and `0b` literals, which both read in another radix (`BigInt("0x1f")` is 31), nor is `Number` for `Infinity`: the model reads only signed decimal literals, with an optional fraction and exponent for `Number`, and gives NaN or a failed `BigInt` for the rest. `parseInt` reads decimal digits only: the `0x` prefix that the default radix reads as hexadecimal is not modelled, and a `type="number"` input cannot produce it.
- CreateToken.CreateInstructions, MintToken.MintInstructions, SendToken.SendInstructions: the u64 encoding of instruction amounts is not modelled. A negative or oversized amount is handed to the program unchanged rather than rejected by the encoder. The one-byte `decimals` field is modelled (`ByteOutOfRange`).
- RPC and network failures (`getMinimumBalanceForRentExemption`, `getLatestBlockhash`, `getAccountInfo`, `getSignaturesForAddress` and `getParsedTransaction` throwing) are not modelled. The node's answers are a fixed `Chain` value, and the history's `lookup` answers every signature with a transaction or null. In the code, a throw from `getParsedTransaction` (for instance on a version-0 transaction, since no `maxSupportedTransactionVersion` is passed) reaches the catch and fails the whole history with the error toast.
- Building the `Connection` (`clusterApiUrl('devnet')`) is left out. It has no effect on the outcome.
- `handleInputChange` and the rendered markup are not modelled. The form fields are the class's `formData`.
- `Keypair.generate()` is left out; the generated mint key is a parameter.
- The key arithmetic is left uninterpreted: whether base58 text decodes to exactly 32 bytes, `isOnCurve`, and the program-derived associated address. The base58 alphabet check itself is modelled.
- Solana.ParsePublicKey: every character outside the base58 alphabet, including ones above U+00FF, is taken as rejected by the decoder with "Non-base58 character"; how a given version of the base58 library treats such characters is not modelled.
- Solana.GetMint: `getMint` checks that the account exists, that its owner is the given program and that its data has the mint size. The size check is collapsed into the account being of the `Mint` kind; the layout is not decoded.
- Solana.Message: the text of the `BigInt` range error is shortened; the engine's message also quotes the number (`The number 0.5 cannot be converted...`). No toast shows this text.
- Solana.ConfirmTransaction: the returned status's `err` is ignored, as in the source.
- The history's timestamps (`blockTime` or the current date) are left out. The clock is outside the model.
- TransactionHistory.AmountAndToken: the `toString` rendering of the scaled amount is not modelled. The shown value is the number itself.
- Console logging is left out.
- The loading flag is modelled only as set and cleared around each operation. Its intermediate renders are not.
- The Wallet Info component's SOL balance (`fetchBalance`) and `copyAddress` are left out. They are a network read and a clipboard write, with no logic beyond `formatAddress`.
- The metadata fields of the Create form (name, symbol, description, image URL) are kept in the form state but never used, as in the source.
- `frontend/lib/solana.ts` and the page and layout components are not part of this model.
- Ordering: the Mint and Send planning functions take the already-converted `Number(formData.amount)` as a parameter, though the handlers convert it only after the chain lookups. Since `Number` is pure, the outcome is the same.
