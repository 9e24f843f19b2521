/**
 * The "Transaction History" view: the wallet's ten most recent signatures,
 * each parsed transaction classified as create / mint / send / receive,
 * labelled with an amount and a token, and given a status.
 */
module TransactionHistory {
  import opened Wrappers
  import opened JsString
  import opened JsNumber
  import opened Solana

  const FetchFailedText := "Failed to fetch transaction history"
  /** The `limit` passed to `getSignaturesForAddress`. */
  const SignatureLimit: nat := 10

  /** `parsed.info` of a parsed instruction: the fields the view reads. */
  datatype ParsedInfo = ParsedInfo(amount: Option<string>, mint: Option<string>)

  /** `parsed` of a parsed instruction: its `type` and its `info`. */
  datatype ParsedInstruction = ParsedInstruction(kind: string, info: Option<ParsedInfo>)

  /** An entry of `transaction.message.instructions`; instructions the node could not parse have no `parsed`. */
  datatype HistoryInstruction = HistoryInstruction(program: string, parsed: Option<ParsedInstruction>)

  /** An entry of `preTokenBalances` / `postTokenBalances`: its owner and `uiTokenAmount.amount`. */
  datatype TokenBalance = TokenBalance(owner: Option<string>, amount: string)

  datatype Meta = Meta(preTokenBalances: Option<seq<TokenBalance>>, postTokenBalances: Option<seq<TokenBalance>>)

  /** What `getParsedTransaction` returns when the transaction is found. */
  datatype ParsedTransaction = ParsedTransaction(instructions: seq<HistoryInstruction>, meta: Option<Meta>)

  /** An entry of `getSignaturesForAddress`: the signature and whether `err` is set. */
  datatype SignatureInfo = SignatureInfo(signature: string, failed: bool)

  datatype Category = CreateTx | MintTx | SendTx | ReceiveTx

  datatype Status = Succeeded | Pending | Failed

  /**
   * The `amount` shown: a text taken as is, or the number
   * `Number(rawAmount) / 10 ** decimals` (its `toString` rendering is not modelled).
   */
  datatype AmountLabel = Text(text: string) | Shown(value: Num)

  /** One row of the view (the timestamp is not modelled). */
  datatype Entry = Entry(id: string, category: Category, amount: AmountLabel, token: string, status: Status,
                         hash: string)

  /** `ix.program === 'spl-token' && ix.parsed?.type === kind`. */
  predicate IsSplKind(ix: HistoryInstruction, kind: string)
  {
    ix.program == "spl-token" && ix.parsed.Some? && ix.parsed.value.kind == kind
  }

  /** `instructions.some(ix => ix.program === 'spl-token' && ix.parsed?.type === kind)`. */
  predicate HasSplKind(ixs: seq<HistoryInstruction>, kind: string)
  {
    exists i :: 0 <= i < |ixs| && IsSplKind(ixs[i], kind)
  }

  predicate OwnedBy(b: TokenBalance, owner: string)
  {
    b.owner == Some(owner)
  }

  /** `balances.find(b => b.owner === owner)`: the first balance of `owner`. */
  function FindOwner(bs: seq<TokenBalance>, owner: string): (r: Option<TokenBalance>)
    ensures r.Some? <==> exists i :: 0 <= i < |bs| && OwnedBy(bs[i], owner)
    ensures r.Some? ==>
      exists i :: 0 <= i < |bs| && bs[i] == r.value && OwnedBy(bs[i], owner)
                  && forall j :: 0 <= j < i ==> !OwnedBy(bs[j], owner)
  {
    if bs == [] then None
    else if OwnedBy(bs[0], owner) then Some(bs[0])
    else
      var r := FindOwner(bs[1..], owner);
      assert forall i :: 1 <= i < |bs| ==> bs[i] == bs[1..][i - 1];
      r
  }

  /** `meta?.<balances>?.find(b => b.owner === owner)`. */
  function BalanceOf(balances: Option<seq<TokenBalance>>, owner: string): Option<TokenBalance>
  {
    if balances.Some? then FindOwner(balances.value, owner) else None
  }

  /** `BigInt(amount || '0')`: the empty string counts as zero, any other non-integer text throws. */
  function AmountValue(amount: string): (r: Result<int, Error>)
    ensures amount == "" ==> r == Success(0)
    ensures r.Failure? ==> r.error == InvalidBigIntSyntax
  {
    var text := if amount == "" then "0" else amount;
    assert amount == "" ==> StringToBigInt(text) == Some(0) by {
      if amount == "" {
        StringToBigIntOfDigits("0");
      }
    }
    match StringToBigInt(text)
    case Some(v) => Success(v)
    case None => Failure(InvalidBigIntSyntax)
  }

  /** The direction of a transfer, from the owner's balances before and after it. */
  function TransferDirection(meta: Option<Meta>, owner: string): (r: Result<Category, Error>)
    ensures r.Failure? ==> r.error == InvalidBigIntSyntax
    ensures r.Success? ==> r.value == SendTx || r.value == ReceiveTx
    ensures r == Success(ReceiveTx) ==> meta.Some? && BalanceOf(meta.value.postTokenBalances, owner).Some?
  {
    var pre := if meta.Some? then BalanceOf(meta.value.preTokenBalances, owner) else None;
    var post := if meta.Some? then BalanceOf(meta.value.postTokenBalances, owner) else None;
    if pre.Some? && post.Some? then
      var preAmount :- AmountValue(pre.value.amount);
      var postAmount :- AmountValue(post.value.amount);
      Success(if postAmount > preAmount then ReceiveTx else SendTx)
    else if post.Some? then Success(ReceiveTx)
    else Success(SendTx)
  }

  /** The category: create beats mint beats transfer; anything else is a send. */
  function Classify(ixs: seq<HistoryInstruction>, meta: Option<Meta>, owner: string): (r: Result<Category, Error>)
    ensures HasSplKind(ixs, "initializeMint") ==> r == Success(CreateTx)
    ensures r.Failure? ==> r.error == InvalidBigIntSyntax && HasSplKind(ixs, "transfer")
    ensures r == Success(ReceiveTx) ==> HasSplKind(ixs, "transfer") && meta.Some?
  {
    if HasSplKind(ixs, "initializeMint") then Success(CreateTx)
    else if HasSplKind(ixs, "mintTo") then Success(MintTx)
    else if HasSplKind(ixs, "transfer") then TransferDirection(meta, owner)
    else Success(SendTx)
  }

  /** `ix.parsed?.info?.amount` is truthy: present and not the empty string. */
  predicate HasAmount(ix: HistoryInstruction)
  {
    ix.parsed.Some? && ix.parsed.value.info.Some? && ix.parsed.value.info.value.amount.Some?
    && ix.parsed.value.info.value.amount.value != ""
  }

  /** `instructions.find(ix => ix.parsed?.info?.amount)`, of any program. */
  function FirstWithAmount(ixs: seq<HistoryInstruction>): (r: Option<HistoryInstruction>)
    ensures r.Some? <==> exists i :: 0 <= i < |ixs| && HasAmount(ixs[i])
    ensures r.Some? ==>
      exists i :: 0 <= i < |ixs| && ixs[i] == r.value && HasAmount(ixs[i])
                  && forall j :: 0 <= j < i ==> !HasAmount(ixs[j])
  {
    if ixs == [] then None
    else if HasAmount(ixs[0]) then Some(ixs[0])
    else
      var r := FirstWithAmount(ixs[1..]);
      assert forall i :: 1 <= i < |ixs| ==> ixs[i] == ixs[1..][i - 1];
      r
  }

  /** `getMint(connection, new PublicKey(mintAddr))`: the decimals of a classic-token mint. */
  function MintDecimals(crypto: Crypto, chain: Chain, mintAddr: string): Result<nat, Error>
  {
    var key :- ParsePublicKey(crypto, mintAddr);
    GetMint(chain, key, TokenProgram)
  }

  /** `Number(rawAmount) / 10 ** decimals`. */
  function Scale(raw: Num, decimals: nat): (n: Num)
    ensures n.Finite? <==> raw.Finite?
    ensures n.Finite? ==> TimesPow10(n.value, decimals) == raw.value
  {
    if raw.Finite? then
      TimesPow10Add(raw.value, -(decimals as int), decimals);
      Finite(TimesPow10(raw.value, -(decimals as int)))
    else NaN
  }

  /**
   * The `amount` and `token` of an entry: the first instruction carrying an
   * amount decides; the amount is scaled and the token labelled only when
   * its mint is a classic-token mint the node can read.
   */
  function AmountAndToken(ixs: seq<HistoryInstruction>, crypto: Crypto, chain: Chain): (r: (AmountLabel, string))
    ensures FirstWithAmount(ixs).None? ==> r == (Text("0"), "SPL")
    ensures FirstWithAmount(ixs).Some? ==>
      var info := FirstWithAmount(ixs).value.parsed.value.info.value;
      var raw := info.amount.value;
      var lookup := if info.mint.Some? && info.mint.value != "" then MintDecimals(crypto, chain, info.mint.value)
                    else Failure(TokenAccountNotFound);
      && (lookup.Failure? ==> r == (Text(raw), "SPL"))
      && (lookup.Success? ==>
            && r.0 == Shown(Scale(ToNumber(raw), lookup.value))
            && r.1 == Slice(info.mint.value, 0, 4) + "..."
            && r.1[..|r.1| - 3] == info.mint.value[..Min(4, |info.mint.value|)])
  {
    match FirstWithAmount(ixs)
    case None => (Text("0"), "SPL")
    case Some(ix) =>
      var info := ix.parsed.value.info.value;
      var raw := info.amount.value;
      if info.mint.Some? && info.mint.value != "" then
        var decimals := MintDecimals(crypto, chain, info.mint.value);
        if decimals.Success? then
          var prefix := Slice(info.mint.value, 0, 4);
          assert prefix == info.mint.value[..Min(4, |info.mint.value|)];
          assert (prefix + "...")[..|prefix + "..."| - 3] == prefix;
          (Shown(Scale(ToNumber(raw), decimals.value)), prefix + "...")
        else (Text(raw), "SPL")
      else (Text(raw), "SPL")
  }

  /** `sigInfo.err ? 'failed' : 'success'`. */
  function StatusOf(sig: SignatureInfo): (s: Status)
    ensures s != Pending
    ensures s == Failed <==> sig.failed
  {
    if sig.failed then Failed else Succeeded
  }

  /**
   * The entry for one signature, None when the node returns no parsed
   * transaction; the classification's `BigInt` error escapes.
   */
  function EntryFor(sig: SignatureInfo, tx: Option<ParsedTransaction>, owner: string, crypto: Crypto,
                    chain: Chain): (r: Result<Option<Entry>, Error>)
    ensures tx.None? ==> r == Success(None)
    ensures tx.Some? ==> (r.Success? <==> Classify(tx.value.instructions, tx.value.meta, owner).Success?)
    ensures r.Success? && tx.Some? ==>
      && r.value.Some?
      && r.value.value.id == sig.signature && r.value.value.hash == sig.signature
      && r.value.value.category == Classify(tx.value.instructions, tx.value.meta, owner).value
      && (r.value.value.amount, r.value.value.token) == AmountAndToken(tx.value.instructions, crypto, chain)
      && r.value.value.status == StatusOf(sig)
  {
    if tx.None? then Success(None)
    else
      var category :- Classify(tx.value.instructions, tx.value.meta, owner);
      var (amount, token) := AmountAndToken(tx.value.instructions, crypto, chain);
      Success(Some(Entry(sig.signature, category, amount, token, StatusOf(sig), sig.signature)))
  }

  /** The entries of a list of signatures, in order; the first error aborts the whole list. */
  function Entries(signatures: seq<SignatureInfo>, owner: string, lookup: string -> Option<ParsedTransaction>,
                   crypto: Crypto, chain: Chain): (r: Result<seq<Entry>, Error>)
    ensures r.Success? ==> |r.value| <= |signatures|
    ensures r.Failure? ==> r.error == InvalidBigIntSyntax
    decreases |signatures|
  {
    if signatures == [] then Success([])
    else
      var last := signatures[|signatures| - 1];
      var earlier :- Entries(signatures[..|signatures| - 1], owner, lookup, crypto, chain);
      var entry :- EntryFor(last, lookup(last.signature), owner, crypto, chain);
      Success(earlier + (if entry.Some? then [entry.value] else []))
  }

  /** The signatures whose parsed transaction the node returns. */
  function Kept(signatures: seq<SignatureInfo>, lookup: string -> Option<ParsedTransaction>): seq<SignatureInfo>
    decreases |signatures|
  {
    if signatures == [] then []
    else
      var last := signatures[|signatures| - 1];
      Kept(signatures[..|signatures| - 1], lookup) + (if lookup(last.signature).Some? then [last] else [])
  }

  /** `getSignaturesForAddress(publicKey, { limit: 10 })`: the newest ten of the address's signatures. */
  function RecentSignatures(history: seq<SignatureInfo>): (r: seq<SignatureInfo>)
    ensures |r| <= SignatureLimit && |r| <= |history| && r == history[..|r|]
    ensures |history| >= SignatureLimit ==> |r| == SignatureLimit
  {
    history[..Min(SignatureLimit, |history|)]
  }

  /**
   * The entries follow the kept signatures one for one, in order: each
   * entry's id and hash are its signature, and its status is that
   * signature's.
   */
  lemma {:induction false} EntriesFollowSignatures(signatures: seq<SignatureInfo>, owner: string,
                                                   lookup: string -> Option<ParsedTransaction>,
                                                   crypto: Crypto, chain: Chain)
    requires Entries(signatures, owner, lookup, crypto, chain).Success?
    ensures var es, ks := Entries(signatures, owner, lookup, crypto, chain).value, Kept(signatures, lookup);
      && |es| == |ks|
      && forall k :: 0 <= k < |es| ==>
           es[k].id == ks[k].signature && es[k].hash == ks[k].signature && es[k].status == StatusOf(ks[k])
    decreases |signatures|
  {
    if signatures != [] {
      var last := signatures[|signatures| - 1];
      var front := signatures[..|signatures| - 1];
      EntriesFollowSignatures(front, owner, lookup, crypto, chain);
      var earlier := Entries(front, owner, lookup, crypto, chain).value;
      var entry := EntryFor(last, lookup(last.signature), owner, crypto, chain).value;
      assert Entries(signatures, owner, lookup, crypto, chain).value
          == earlier + (if entry.Some? then [entry.value] else []);
      assert Kept(signatures, lookup) == Kept(front, lookup) + (if lookup(last.signature).Some? then [last] else []);
    }
  }

  /** The view never shows more than ten entries. */
  lemma AtMostTen(history: seq<SignatureInfo>, owner: string, lookup: string -> Option<ParsedTransaction>,
                  crypto: Crypto, chain: Chain)
    requires Entries(RecentSignatures(history), owner, lookup, crypto, chain).Success?
    ensures |Entries(RecentSignatures(history), owner, lookup, crypto, chain).value| <= SignatureLimit
  {
  }

  /** An `initializeMint` of the token program makes the transaction a creation, whatever else it holds. */
  lemma CreateWins(ixs: seq<HistoryInstruction>, meta: Option<Meta>, owner: string)
    ensures Classify(ixs, meta, owner) == Success(CreateTx) <==> HasSplKind(ixs, "initializeMint")
  {
  }

  /** Without an `initializeMint`, a `mintTo` of the token program makes the transaction a mint. */
  lemma MintBeatsTransfer(ixs: seq<HistoryInstruction>, meta: Option<Meta>, owner: string)
    ensures Classify(ixs, meta, owner) == Success(MintTx)
        <==> !HasSplKind(ixs, "initializeMint") && HasSplKind(ixs, "mintTo")
  {
  }

  /**
   * A transaction with none of the three token instructions is shown as a
   * send; one with only a transfer is decided by its balances.
   */
  lemma DefaultIsSend(ixs: seq<HistoryInstruction>, meta: Option<Meta>, owner: string)
    requires !HasSplKind(ixs, "initializeMint") && !HasSplKind(ixs, "mintTo")
    ensures !HasSplKind(ixs, "transfer") ==> Classify(ixs, meta, owner) == Success(SendTx)
    ensures HasSplKind(ixs, "transfer") ==> Classify(ixs, meta, owner) == TransferDirection(meta, owner)
  {
  }

  /**
   * With both balances of the owner present, a transfer is a receive
   * exactly when the balance after it is larger; an empty amount counts
   * as zero.
   */
  lemma DirectionByBalances(pre: seq<TokenBalance>, post: seq<TokenBalance>, owner: string, before: int, after: int)
    requires FindOwner(pre, owner).Some? && FindOwner(post, owner).Some?
    requires AmountValue(FindOwner(pre, owner).value.amount) == Success(before)
    requires AmountValue(FindOwner(post, owner).value.amount) == Success(after)
    ensures TransferDirection(Some(Meta(Some(pre), Some(post))), owner) == Success(ReceiveTx) <==> after > before
    ensures TransferDirection(Some(Meta(Some(pre), Some(post))), owner) == Success(SendTx) <==> after <= before
  {
  }

  /**
   * Missing balances: a balance only after the transfer is a receive; only
   * before it, or neither, is a send.
   */
  lemma DirectionWithoutBoth(meta: Option<Meta>, owner: string)
    requires var pre := if meta.Some? then BalanceOf(meta.value.preTokenBalances, owner) else None;
      var post := if meta.Some? then BalanceOf(meta.value.postTokenBalances, owner) else None;
      !(pre.Some? && post.Some?)
    ensures var post := if meta.Some? then BalanceOf(meta.value.postTokenBalances, owner) else None;
      TransferDirection(meta, owner) == Success(if post.Some? then ReceiveTx else SendTx)
  {
  }

  /** The owner's balance going from 100 to 150 base units is a receive; from 150 to 100, a send. */
  lemma HundredToHundredFifty(owner: string)
    ensures TransferDirection(Some(Meta(Some([TokenBalance(Some(owner), "100")]),
                                        Some([TokenBalance(Some(owner), "150")]))), owner) == Success(ReceiveTx)
    ensures TransferDirection(Some(Meta(Some([TokenBalance(Some(owner), "150")]),
                                        Some([TokenBalance(Some(owner), "100")]))), owner) == Success(SendTx)
  {
    DigitsOf100And150();
    var one := [TokenBalance(Some(owner), "100")];
    var other := [TokenBalance(Some(owner), "150")];
    assert FindOwner(one, owner) == Some(one[0]);
    assert FindOwner(other, owner) == Some(other[0]);
  }

  lemma DigitsOf100And150()
    ensures AmountValue("100") == Success(100) && AmountValue("150") == Success(150)
  {
    Digits100();
    Digits150();
  }

  lemma Digits100()
    ensures StringToBigInt("100") == Some(100)
  {
    StringToBigIntOfDigits("100");
    assert "100"[..2] == "10" && "10"[..1] == "1" && "1"[..0] == "";
    assert DigitsValue("1") == 1;
    assert DigitsValue("10") == 10;
  }

  lemma Digits150()
    ensures StringToBigInt("150") == Some(150)
  {
    StringToBigIntOfDigits("150");
    assert "150"[..2] == "15" && "15"[..1] == "1" && "1"[..0] == "";
    assert DigitsValue("1") == 1;
    assert DigitsValue("15") == 15;
  }

  /** An empty amount before the transfer counts as zero, so any positive amount after it is a receive. */
  lemma EmptyBeforeCountsAsZero(owner: string, after: string, v: int)
    requires AmountValue(after) == Success(v) && v > 0
    ensures TransferDirection(Some(Meta(Some([TokenBalance(Some(owner), "")]),
                                        Some([TokenBalance(Some(owner), after)]))), owner) == Success(ReceiveTx)
  {
    var one := [TokenBalance(Some(owner), "")];
    var other := [TokenBalance(Some(owner), after)];
    assert FindOwner(one, owner) == Some(one[0]);
    assert FindOwner(other, owner) == Some(other[0]);
  }

  lemma SameElementsSameKinds(ixs: seq<HistoryInstruction>, ixs': seq<HistoryInstruction>, kind: string)
    requires multiset(ixs) == multiset(ixs')
    ensures HasSplKind(ixs, kind) <==> HasSplKind(ixs', kind)
  {
    if HasSplKind(ixs, kind) {
      var i :| 0 <= i < |ixs| && IsSplKind(ixs[i], kind);
      assert ixs[i] in multiset(ixs');
      var j :| 0 <= j < |ixs'| && ixs'[j] == ixs[i];
    }
    if HasSplKind(ixs', kind) {
      var j :| 0 <= j < |ixs'| && IsSplKind(ixs'[j], kind);
      assert ixs'[j] in multiset(ixs);
      var i :| 0 <= i < |ixs| && ixs[i] == ixs'[j];
    }
  }

  /** The category does not depend on the order of the instructions. */
  lemma OrderIrrelevant(ixs: seq<HistoryInstruction>, ixs': seq<HistoryInstruction>, meta: Option<Meta>,
                        owner: string)
    requires multiset(ixs) == multiset(ixs')
    ensures Classify(ixs, meta, owner) == Classify(ixs', meta, owner)
  {
    SameElementsSameKinds(ixs, ixs', "initializeMint");
    SameElementsSameKinds(ixs, ixs', "mintTo");
    SameElementsSameKinds(ixs, ixs', "transfer");
  }

  lemma OthersAddNoKinds(xs: seq<HistoryInstruction>, others: seq<HistoryInstruction>, ys: seq<HistoryInstruction>,
                         kind: string)
    requires forall k :: 0 <= k < |others| ==> others[k].program != "spl-token"
    ensures HasSplKind(xs + others + ys, kind) <==> HasSplKind(xs + ys, kind)
  {
    var whole, short := xs + others + ys, xs + ys;
    if HasSplKind(whole, kind) {
      var i :| 0 <= i < |whole| && IsSplKind(whole[i], kind);
      if i < |xs| {
        assert short[i] == whole[i];
      } else if i < |xs| + |others| {
        assert false;
      } else {
        assert short[i - |others|] == whole[i];
      }
    }
    if HasSplKind(short, kind) {
      var i :| 0 <= i < |short| && IsSplKind(short[i], kind);
      if i < |xs| {
        assert whole[i] == short[i];
      } else {
        assert whole[i + |others|] == short[i];
      }
    }
  }

  /** Instructions of any program other than the token program, inserted anywhere, never change the category. */
  lemma OtherProgramsIgnored(xs: seq<HistoryInstruction>, others: seq<HistoryInstruction>, ys: seq<HistoryInstruction>,
                             meta: Option<Meta>, owner: string)
    requires forall k :: 0 <= k < |others| ==> others[k].program != "spl-token"
    ensures Classify(xs + others + ys, meta, owner) == Classify(xs + ys, meta, owner)
  {
    OthersAddNoKinds(xs, others, ys, "initializeMint");
    OthersAddNoKinds(xs, others, ys, "mintTo");
    OthersAddNoKinds(xs, others, ys, "transfer");
  }

  /**
   * A transfer under Token-2022 names a mint the classic-token `getMint`
   * rejects: its raw amount is shown under the generic "SPL" label.
   */
  lemma Token2022AmountShownRaw(ixs: seq<HistoryInstruction>, crypto: Crypto, chain: Chain)
    requires FirstWithAmount(ixs).Some?
    requires var info := FirstWithAmount(ixs).value.parsed.value.info.value;
      info.mint.Some? && Address(info.mint.value) in chain.accounts
      && chain.accounts[Address(info.mint.value)].program == Token2022Program
    ensures AmountAndToken(ixs, crypto, chain)
         == (Text(FirstWithAmount(ixs).value.parsed.value.info.value.amount.value), "SPL")
  {
  }

  /** One more signature: its entry, if any, is appended to those of the signatures before it. */
  lemma EntriesPush(signatures: seq<SignatureInfo>, i: nat, owner: string, lookup: string -> Option<ParsedTransaction>,
                    crypto: Crypto, chain: Chain, txs: seq<Entry>, entry: Option<Entry>)
    requires i < |signatures|
    requires Entries(signatures[..i], owner, lookup, crypto, chain) == Success(txs)
    requires EntryFor(signatures[i], lookup(signatures[i].signature), owner, crypto, chain) == Success(entry)
    ensures Entries(signatures[..i + 1], owner, lookup, crypto, chain)
         == Success(txs + (if entry.Some? then [entry.value] else []))
  {
    assert signatures[..i + 1][..i] == signatures[..i];
  }

  /** A signature whose transaction cannot be classified fails the whole list. */
  lemma {:induction false} EntriesStopAt(signatures: seq<SignatureInfo>, i: nat, owner: string,
                                         lookup: string -> Option<ParsedTransaction>, crypto: Crypto, chain: Chain)
    requires i < |signatures|
    requires lookup(signatures[i].signature).Some?
    requires var tx := lookup(signatures[i].signature).value;
      Classify(tx.instructions, tx.meta, owner).Failure?
    ensures Entries(signatures, owner, lookup, crypto, chain) == Failure(InvalidBigIntSyntax)
    decreases |signatures|
  {
    if i < |signatures| - 1 {
      var front := signatures[..|signatures| - 1];
      assert front[i] == signatures[i];
      EntriesStopAt(front, i, owner, lookup, crypto, chain);
    }
  }

  /**
   * The loop body's classification as `fetchTransactions` writes it: the type
   * starts as a send and is overwritten by the first of the three token
   * instructions present; for a transfer the owner's balances before and
   * after are looked up and, when both are there, compared as `BigInt`s,
   * whose conversion may throw.
   */
  method Categorize(instructions: seq<HistoryInstruction>, meta: Option<Meta>, owner: string)
    returns (r: Result<Category, Error>)
    ensures r == Classify(instructions, meta, owner)
  {
    var category := SendTx;
    var hasCreate := HasSplKind(instructions, "initializeMint");
    var hasMint := HasSplKind(instructions, "mintTo");
    var hasTransfer := HasSplKind(instructions, "transfer");
    if hasCreate {
      category := CreateTx;
    } else if hasMint {
      category := MintTx;
    } else if hasTransfer {
      var pre: Option<TokenBalance> := None;
      var post: Option<TokenBalance> := None;
      if meta.Some? {
        pre := BalanceOf(meta.value.preTokenBalances, owner);
        post := BalanceOf(meta.value.postTokenBalances, owner);
      }
      if pre.Some? && post.Some? {
        var preAmount := AmountValue(pre.value.amount);
        if preAmount.Failure? {
          return Failure(preAmount.error);
        }
        var postAmount := AmountValue(post.value.amount);
        if postAmount.Failure? {
          return Failure(postAmount.error);
        }
        category := if postAmount.value > preAmount.value then ReceiveTx else SendTx;
      } else if post.Some? && pre.None? {
        category := ReceiveTx;
      }
    }
    r := Success(category);
  }

  /** The loop body's amount and token, step by step: defaults, overwritten from the first instruction with an amount. */
  method AmountOf(instructions: seq<HistoryInstruction>, crypto: Crypto, chain: Chain)
    returns (amount: AmountLabel, token: string)
    ensures (amount, token) == AmountAndToken(instructions, crypto, chain)
  {
    amount := Text("0");
    token := "SPL";
    var parsedIx := FirstWithAmount(instructions);
    if parsedIx.Some? {
      var info := parsedIx.value.parsed.value.info.value;
      var rawAmount := info.amount.value;
      if info.mint.Some? && info.mint.value != "" {
        var decimals := MintDecimals(crypto, chain, info.mint.value);
        if decimals.Success? {
          amount := Shown(Scale(ToNumber(rawAmount), decimals.value));
          token := Slice(info.mint.value, 0, 4) + "...";
        } else {
          amount := Text(rawAmount);
        }
      } else {
        amount := Text(rawAmount);
      }
    }
  }

  /**
   * The loop of `fetchTransactions` over the fetched signatures: the
   * parsed transaction of each is requested, skipped when missing, and
   * otherwise classified and labelled, and its entry pushed.
   */
  method CollectEntries(signatures: seq<SignatureInfo>, owner: string, lookup: string -> Option<ParsedTransaction>,
                        crypto: Crypto, chain: Chain) returns (r: Result<seq<Entry>, Error>)
    ensures r == Entries(signatures, owner, lookup, crypto, chain)
  {
    var txs: seq<Entry> := [];
    var i := 0;
    while i < |signatures|
      invariant 0 <= i <= |signatures|
      invariant Entries(signatures[..i], owner, lookup, crypto, chain) == Success(txs)
    {
      var sigInfo := signatures[i];
      var parsedTx := lookup(sigInfo.signature);
      if parsedTx.None? {
        EntriesPush(signatures, i, owner, lookup, crypto, chain, txs, None);
        assert txs + [] == txs;
        i := i + 1;
        continue;
      }
      var instructions := parsedTx.value.instructions;
      var meta := parsedTx.value.meta;
      var category := Categorize(instructions, meta, owner);
      if category.Failure? {
        EntriesStopAt(signatures, i, owner, lookup, crypto, chain);
        return Failure(category.error);
      }
      var amount, token := AmountOf(instructions, crypto, chain);
      var entry := Entry(sigInfo.signature, category.value, amount, token, StatusOf(sigInfo), sigInfo.signature);
      EntriesPush(signatures, i, owner, lookup, crypto, chain, txs, Some(entry));
      txs := txs + [entry];
      i := i + 1;
    }
    assert signatures[..i] == signatures;
    r := Success(txs);
  }

  /** The component: the entries it shows and its loading flag. */
  class TransactionHistoryView {
    var transactions: seq<Entry>
    var loading: bool

    constructor ()
      ensures transactions == [] && !loading
    {
      transactions, loading := [], false;
    }

    /**
     * `fetchTransactions`. `history` is the address's signatures, newest
     * first, as the node holds them; `lookup` is what `getParsedTransaction`
     * answers for a signature. The view's entries are replaced only when
     * every transaction could be classified; otherwise an error toast is shown.
     */
    method FetchTransactions(wallet: Wallet, history: seq<SignatureInfo>,
                             lookup: string -> Option<ParsedTransaction>, crypto: Crypto, chain: Chain)
      returns (toast: Option<Toast>)
      modifies this
      ensures !(wallet.connected && wallet.publicKey.Some?) ==>
        transactions == old(transactions) && loading == old(loading) && toast == None
      ensures wallet.connected && wallet.publicKey.Some? ==>
        var r := Entries(RecentSignatures(history), wallet.publicKey.value.base58, lookup, crypto, chain);
        && !loading
        && (r.Success? ==> transactions == r.value && toast == None)
        && (r.Failure? ==> transactions == old(transactions) && toast == Some(ToastError(FetchFailedText)))
    {
      if !(wallet.connected && wallet.publicKey.Some?) {
        return None;
      }
      loading := true;
      var signatures := RecentSignatures(history);
      var txs := CollectEntries(signatures, wallet.publicKey.value.base58, lookup, crypto, chain);
      if txs.Failure? {
        toast := Some(ToastError(FetchFailedText));
      } else {
        transactions := txs.value;
        toast := None;
      }
      loading := false;
    }
  }
}
