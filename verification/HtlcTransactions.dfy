/** The transactions around an HTLC: funding and spending on Bitcoin and on Liquid, and what
    they conserve (src/chain/bitcoin.rs, src/chain/liquid.rs). Text decoding of ids and scripts
    is taken as done. */
module HtlcTransactions {
  import opened Wrappers
  import opened Script
  import opened Htlc

  datatype Utxo = Utxo(txid: string, vout: U32, assetId: AssetId, amount: U64, script: Bytes)

  /** What outputs carry of one asset; a fee output counts like any other. */
  function AssetTotal(outputs: seq<TxOut>, asset: AssetId): nat {
    if outputs == [] then 0
    else
      var last := outputs[|outputs| - 1];
      AssetTotal(outputs[..|outputs| - 1], asset) + (if last.asset == asset then last.value else 0)
  }

  lemma TotalAppends(outputs: seq<TxOut>, o: TxOut, asset: AssetId)
    ensures AssetTotal(outputs + [o], asset) == AssetTotal(outputs, asset) + (if o.asset == asset then o.value else 0)
  {
    assert (outputs + [o])[..|outputs|] == outputs;
  }

  function InputTotal(inputs: seq<Utxo>, asset: AssetId): nat {
    if inputs == [] then 0
    else
      var last := inputs[|inputs| - 1];
      InputTotal(inputs[..|inputs| - 1], asset) + (if last.assetId == asset then last.amount else 0)
  }

  function Part(applies: bool, amount: nat): nat {
    if applies then amount else 0
  }

  lemma InputTotalOfTwo(a: Utxo, b: Utxo, asset: AssetId)
    ensures InputTotal([a, b], asset) == Part(a.assetId == asset, a.amount) + Part(b.assetId == asset, b.amount)
  {
    assert [a, b][..1] == [a] && [a][..0] == [];
    assert InputTotal([a], asset) == Part(a.assetId == asset, a.amount);
  }

  function SpendingInput(txid: string, vout: U32, sequence: U32): TxIn {
    TxIn(txid, vout, sequence, [])
  }

  const REPLACEABLE: U32 := 0xffff_fffd

  // Bitcoin.

  datatype BitcoinFunding = BitcoinFunding(
    input: Utxo, contract: Contract, htlcAmount: U64, changeAmount: U64, changeScript: Bytes, fee: U64)

  function ValidateFundingAmounts(a: BitcoinFunding): Result<(), ChainError> {
    match CheckedAdd(a.htlcAmount, a.changeAmount)
    case None => Err(InvalidInput)
    case Some(outputs) =>
      match CheckedAdd(outputs, a.fee)
      case None => Err(InvalidInput)
      case Some(required) => if a.fee == 0 || a.input.amount != required then Err(InvalidInput) else Ok(())
  }

  function BitcoinFundingOutputs(a: BitcoinFunding): seq<TxOut> {
    var htlc := TxOut(Native, a.htlcAmount, a.contract.outputScript);
    if a.changeAmount == 0 then [htlc] else [htlc, TxOut(Native, a.changeAmount, a.changeScript)]
  }

  function BuildBitcoinFundingTransaction(crypto: Crypto, a: BitcoinFunding): Result<Tx, ChainError>
    requires Lawful(crypto) && Sized(a.contract.terms)
  {
    var _ :- ValidateFundingAmounts(a);
    var _ :- ValidateContractFor(crypto, a.contract, BitcoinRegtest);
    Ok(Tx(2, 0, [SpendingInput(a.input.txid, a.input.vout, REPLACEABLE)], BitcoinFundingOutputs(a)))
  }

  /** Funding is built exactly when the input covers the contract, the change and a positive fee to
      the satoshi, for a valid contract. It spends that one input, pays the contract at output 0 and
      whatever is left over to the change script, and loses exactly the fee. */
  lemma BitcoinFundingConserves(crypto: Crypto, a: BitcoinFunding)
    requires Lawful(crypto) && Sized(a.contract.terms)
    ensures BuildBitcoinFundingTransaction(crypto, a).Ok? <==>
      && ValidateContractFor(crypto, a.contract, BitcoinRegtest).Ok?
      && a.fee > 0 && a.input.amount == a.htlcAmount + a.changeAmount + a.fee
    ensures BuildBitcoinFundingTransaction(crypto, a).Ok? ==>
      var tx := BuildBitcoinFundingTransaction(crypto, a).value;
      && tx.version == 2 && tx.lockTime == 0
      && tx.inputs == [TxIn(a.input.txid, a.input.vout, 0xffff_fffd, [])]
      && |tx.outputs| == (if a.changeAmount > 0 then 2 else 1)
      && tx.outputs[0] == TxOut(Native, a.htlcAmount, ToP2wsh(crypto, a.contract.scriptBytes))
      && (a.changeAmount > 0 ==> tx.outputs[1] == TxOut(Native, a.changeAmount, a.changeScript))
      && AssetTotal(tx.outputs, Native) + a.fee == a.input.amount
  {
    hide AssetTotal, BuildWitnessScript, HtlcOps;
    if BuildBitcoinFundingTransaction(crypto, a).Ok? {
      ValidContractFacts(crypto, a.contract, BitcoinRegtest);
      FundingTotal(a);
    }
  }

  lemma FundingTotal(a: BitcoinFunding)
    ensures AssetTotal(BitcoinFundingOutputs(a), Native) == a.htlcAmount + a.changeAmount
  {
    var outputs := BitcoinFundingOutputs(a);
    TotalAppends([], outputs[0], Native);
    assert [] + [outputs[0]] == [outputs[0]];
    if a.changeAmount > 0 {
      TotalAppends([outputs[0]], outputs[1], Native);
      assert [outputs[0]] + [outputs[1]] == outputs;
    }
  }

  datatype BitcoinSpend = BitcoinSpend(
    contract: Contract, fundingTxid: string, fundingVout: U32, fundingAmount: U64, destination: Bytes, fee: U64,
    kind: SpendKind)

  function BuildBitcoinHtlcSpend(crypto: Crypto, a: BitcoinSpend): Result<Tx, ChainError>
    requires Lawful(crypto) && Sized(a.contract.terms)
  {
    var _ :- ValidateContractFor(crypto, a.contract, BitcoinRegtest);
    if a.fee == 0 || a.fundingAmount <= a.fee then Err(InvalidInput)
    else
      var lockTime :- SpendLockTime(a.kind, a.contract.terms.refundLockHeight);
      var tx := Tx(2, lockTime, [SpendingInput(a.fundingTxid, a.fundingVout, SpendSequence(a.kind))],
                   [TxOut(Native, a.fundingAmount - a.fee, a.destination)]);
      var script :- BuildWitnessScript(a.contract.terms);
      if a.contract.outputScript != ToP2wsh(crypto, script) || a.contract.scriptBytes != script then Err(Validation)
      else Ok(tx)
  }

  /** A spend of a valid contract is built exactly when a positive fee leaves something. It spends
      that one funding output and pays all but the fee to the destination; a refund carries its
      lock height, a claim none. Signed under the key of either branch, the contract accepts it if
      it claims or was built as a refund, and a claim gives its preimage to the extractor. */
  lemma BitcoinSpendIsSpendable(crypto: Crypto, a: BitcoinSpend, secret: Bytes, preimage: Option<Bytes>, signed: Tx)
    requires Lawful(crypto) && Sized(a.contract.terms) && ValidateContractFor(crypto, a.contract, BitcoinRegtest).Ok?
    ensures BuildBitcoinHtlcSpend(crypto, a).Ok? <==> 0 < a.fee < a.fundingAmount
    ensures BuildBitcoinHtlcSpend(crypto, a).Ok? ==>
      var tx := BuildBitcoinHtlcSpend(crypto, a).value;
      && tx.inputs == [TxIn(a.fundingTxid, a.fundingVout, if a.kind.ClaimSpend? then 0xffff_fffd else 0xffff_fffe, [])]
      && tx.outputs == [TxOut(Native, a.fundingAmount - a.fee, a.destination)]
      && tx.version == 2 && tx.lockTime == (if a.kind.ClaimSpend? then 0 else a.contract.terms.refundLockHeight)
      && AssetTotal(tx.outputs, Native) + a.fee == a.fundingAmount
      && (a.kind.RefundSpend? && Stripped(signed) == Stripped(tx) ==>
            RefundMature(SpendEnv(crypto, a.contract, signed, 0, a.fundingAmount), a.contract.terms))
      && (PreimageFits(crypto, a.contract, preimage) && crypto.publicKey(secret) == BranchKey(a.contract, preimage)
          && SignsBranch(crypto, tx, a.contract, secret, a.fundingAmount, preimage, signed) ==>
            Spendable(crypto, a.contract, BitcoinRegtest, a.kind, a.fundingAmount, preimage, signed))
  {
    ValidContractFacts(crypto, a.contract, BitcoinRegtest);
    if BuildBitcoinHtlcSpend(crypto, a).Ok? {
      var tx := BuildBitcoinHtlcSpend(crypto, a).value;
      assert tx.outputs[..0] == [];
      if a.kind.RefundSpend? && Stripped(signed) == Stripped(tx) {
        assert Stripped(signed).inputs[0].sequence == Stripped(tx).inputs[0].sequence;
        BuiltRefundIsMature(SpendEnv(crypto, a.contract, signed, 0, a.fundingAmount), a.contract.terms);
      }
      if PreimageFits(crypto, a.contract, preimage) && crypto.publicKey(secret) == BranchKey(a.contract, preimage)
         && SignsBranch(crypto, tx, a.contract, secret, a.fundingAmount, preimage, signed) {
        SignedSpendRoundTrip(crypto, a.contract, BitcoinRegtest, a.kind, tx, secret, a.fundingAmount, preimage, signed);
      }
    }
  }

  /** The contract accepts the signed spend exactly if it claims or was built as a refund, and the
      extractor gets the preimage of a claim. */
  predicate Spendable(crypto: Crypto, c: Contract, chain: Chain, kind: SpendKind, amount: U64,
                      preimage: Option<Bytes>, signed: Tx)
    requires Lawful(crypto) && Sized(c.terms)
  {
    && signed.inputs != []
    && (Accepts(SpendEnv(crypto, c, signed, 0, amount), c.outputScript, signed.inputs[0].items)
        <==> preimage.Some? || kind.RefundSpend?)
    && ExtractClaimPreimage(crypto, signed, c, chain, 0)
       == if preimage.Some? then Ok(preimage.value) else Err(Validation)
  }

  // Liquid.

  datatype LiquidFunding = LiquidFunding(
    paymentInput: Utxo, feeInput: Utxo, contract: Contract, htlcAmount: U64, paymentChangeScript: Bytes,
    paymentChange: U64, feeChangeScript: Bytes, feeChange: U64, fee: U64, feeAsset: AssetId)

  function ValidateFeeAsset(expected: AssetId, actual: AssetId): Result<(), ChainError> {
    if expected.Native? || actual != expected then Err(InvalidInput) else Ok(())
  }

  function ValidateFundingArgs(crypto: Crypto, a: LiquidFunding): Result<(), ChainError>
    requires Lawful(crypto) && Sized(a.contract.terms)
  {
    var _ :- ValidateContractFor(crypto, a.contract, LiquidRegtest);
    if a.fee == 0 then Err(InvalidInput)
    else if a.paymentInput.assetId != a.contract.assetId then Err(Validation)
    else
      var _ :- ValidateFeeAsset(a.feeAsset, a.feeInput.assetId);
      if a.paymentInput.txid == a.feeInput.txid && a.paymentInput.vout == a.feeInput.vout then Err(InvalidInput)
      else
        match CheckedAdd(a.htlcAmount, a.paymentChange)
        case None => Err(InvalidInput)
        case Some(paymentTotal) =>
          match CheckedAdd(a.feeChange, a.fee)
          case None => Err(InvalidInput)
          case Some(feeTotal) =>
            if a.paymentInput.amount != paymentTotal || a.feeInput.amount != feeTotal then Err(InvalidInput)
            else Ok(())
  }

  /** `append_output`: nothing is pushed for a zero amount. */
  function Appended(outputs: seq<TxOut>, asset: AssetId, amount: U64, script: Bytes): seq<TxOut> {
    if amount > 0 then outputs + [TxOut(asset, amount, script)] else outputs
  }

  lemma AppendedTotal(outputs: seq<TxOut>, asset: AssetId, amount: U64, script: Bytes, counted: AssetId)
    ensures AssetTotal(Appended(outputs, asset, amount, script), counted)
      == AssetTotal(outputs, counted) + Part(asset == counted, amount)
  {
    TotalAppends(outputs, TxOut(asset, amount, script), counted);
  }

  const FEE_SCRIPT: Bytes := []

  /** The HTLC first, then change that is not zero, then the explicit fee. */
  method FundingOutputs(a: LiquidFunding) returns (outputs: seq<TxOut>)
    ensures forall asset ::
      AssetTotal(outputs, asset)
      == Part(a.contract.assetId == asset, a.htlcAmount + a.paymentChange)
          + Part(a.feeAsset == asset, a.feeChange + a.fee)
    ensures outputs
      == [TxOut(a.contract.assetId, a.htlcAmount, a.contract.outputScript)]
         + (if a.paymentChange > 0 then [TxOut(a.contract.assetId, a.paymentChange, a.paymentChangeScript)] else [])
         + (if a.feeChange > 0 then [TxOut(a.feeAsset, a.feeChange, a.feeChangeScript)] else [])
         + [TxOut(a.feeAsset, a.fee, [])]
  {
    var payment := a.contract.assetId;
    outputs := [TxOut(payment, a.htlcAmount, a.contract.outputScript)];
    ghost var first := outputs;
    outputs := Appended(outputs, payment, a.paymentChange, a.paymentChangeScript);
    ghost var second := outputs;
    outputs := Appended(outputs, a.feeAsset, a.feeChange, a.feeChangeScript);
    ghost var third := outputs;
    outputs := outputs + [TxOut(a.feeAsset, a.fee, FEE_SCRIPT)];
    forall asset ensures AssetTotal(outputs, asset)
      == Part(payment == asset, a.htlcAmount + a.paymentChange) + Part(a.feeAsset == asset, a.feeChange + a.fee)
    {
      assert first[..0] == [];
      AppendedTotal(first, payment, a.paymentChange, a.paymentChangeScript, asset);
      AppendedTotal(second, a.feeAsset, a.feeChange, a.feeChangeScript, asset);
      TotalAppends(third, TxOut(a.feeAsset, a.fee, FEE_SCRIPT), asset);
    }
  }

  /** A Liquid funding transaction conserves every asset, also when payment and fee share one. */
  method BuildLiquidFundingTransaction(crypto: Crypto, a: LiquidFunding) returns (res: Result<Tx, ChainError>)
    requires Lawful(crypto) && Sized(a.contract.terms)
    ensures res.Ok? <==>
      && ValidateContractFor(crypto, a.contract, LiquidRegtest).Ok? && a.fee > 0
      && a.paymentInput.assetId == a.contract.assetId && a.feeInput.assetId == a.feeAsset != Native
      && (a.paymentInput.txid != a.feeInput.txid || a.paymentInput.vout != a.feeInput.vout)
      && a.paymentInput.amount == a.htlcAmount + a.paymentChange && a.feeInput.amount == a.feeChange + a.fee
    ensures res.Ok? ==>
      && (forall asset :: AssetTotal(res.value.outputs, asset) == InputTotal([a.paymentInput, a.feeInput], asset))
      && res.value.version == 2 && res.value.lockTime == 0
      && res.value.inputs == [TxIn(a.paymentInput.txid, a.paymentInput.vout, 0xffff_fffd, []),
                              TxIn(a.feeInput.txid, a.feeInput.vout, 0xffff_fffd, [])]
      && res.value.outputs
         == [TxOut(a.contract.assetId, a.htlcAmount, ToP2wsh(crypto, a.contract.scriptBytes))]
            + (if a.paymentChange > 0 then [TxOut(a.contract.assetId, a.paymentChange, a.paymentChangeScript)] else [])
            + (if a.feeChange > 0 then [TxOut(a.feeAsset, a.feeChange, a.feeChangeScript)] else [])
            + [TxOut(a.feeAsset, a.fee, [])]
  {
    var _ :- ValidateFundingArgs(crypto, a);
    ValidContractFacts(crypto, a.contract, LiquidRegtest);
    var outputs := FundingOutputs(a);
    forall asset ensures AssetTotal(outputs, asset) == InputTotal([a.paymentInput, a.feeInput], asset) {
      InputTotalOfTwo(a.paymentInput, a.feeInput, asset);
    }
    var inputs := [SpendingInput(a.paymentInput.txid, a.paymentInput.vout, REPLACEABLE),
                   SpendingInput(a.feeInput.txid, a.feeInput.vout, REPLACEABLE)];
    return Ok(Tx(2, 0, inputs, outputs));
  }

  datatype LiquidSpend = LiquidSpend(
    contract: Contract, fundingTxid: string, fundingVout: U32, fundingAmount: U64, feeInput: Utxo,
    destination: Bytes, feeChangeScript: Bytes, feeChange: U64, fee: U64, feeAsset: AssetId, kind: SpendKind)

  function ValidateSpendArgs(crypto: Crypto, a: LiquidSpend): Result<(), ChainError>
    requires Lawful(crypto) && Sized(a.contract.terms)
  {
    var _ :- ValidateContractFor(crypto, a.contract, LiquidRegtest);
    if a.fee == 0 || a.fundingAmount == 0 then Err(InvalidInput)
    else
      var _ :- ValidateFeeAsset(a.feeAsset, a.feeInput.assetId);
      match CheckedAdd(a.feeChange, a.fee)
      case None => Err(InvalidInput)
      case Some(feeTotal) =>
        if a.feeInput.amount != feeTotal then Err(InvalidInput)
        else if a.kind.RefundSpend? && a.contract.terms.refundLockHeight == 0 then Err(InvalidInput)
        else Ok(())
  }

  /** The funding output as the input it becomes. */
  function FundedInput(a: LiquidSpend): Utxo {
    Utxo(a.fundingTxid, a.fundingVout, a.contract.assetId, a.fundingAmount, a.contract.outputScript)
  }

  method SpendOutputs(a: LiquidSpend) returns (outputs: seq<TxOut>)
    ensures forall asset ::
      AssetTotal(outputs, asset)
      == Part(a.contract.assetId == asset, a.fundingAmount) + Part(a.feeAsset == asset, a.feeChange + a.fee)
    ensures outputs
      == [TxOut(a.contract.assetId, a.fundingAmount, a.destination)]
         + (if a.feeChange > 0 then [TxOut(a.feeAsset, a.feeChange, a.feeChangeScript)] else [])
         + [TxOut(a.feeAsset, a.fee, [])]
  {
    outputs := [TxOut(a.contract.assetId, a.fundingAmount, a.destination)];
    ghost var first := outputs;
    outputs := Appended(outputs, a.feeAsset, a.feeChange, a.feeChangeScript);
    ghost var second := outputs;
    outputs := outputs + [TxOut(a.feeAsset, a.fee, FEE_SCRIPT)];
    forall asset ensures AssetTotal(outputs, asset)
      == Part(a.contract.assetId == asset, a.fundingAmount) + Part(a.feeAsset == asset, a.feeChange + a.fee)
    {
      assert first[..0] == [];
      AppendedTotal(first, a.feeAsset, a.feeChange, a.feeChangeScript, asset);
      TotalAppends(second, TxOut(a.feeAsset, a.fee, FEE_SCRIPT), asset);
    }
  }

  /** A Liquid spend pays the whole funding amount on and conserves every asset; its lock time and
      sequences are those of its kind, so a refund is mature. */
  method BuildLiquidHtlcSpend(crypto: Crypto, a: LiquidSpend) returns (res: Result<Tx, ChainError>)
    requires Lawful(crypto) && Sized(a.contract.terms)
    ensures res.Ok? <==>
      && ValidateContractFor(crypto, a.contract, LiquidRegtest).Ok? && a.fee > 0 && a.fundingAmount > 0
      && a.feeInput.assetId == a.feeAsset != Native && a.feeInput.amount == a.feeChange + a.fee
    ensures res.Ok? ==>
      && (forall asset :: AssetTotal(res.value.outputs, asset) == InputTotal([FundedInput(a), a.feeInput], asset))
      && res.value.outputs
         == [TxOut(a.contract.assetId, a.fundingAmount, a.destination)]
            + (if a.feeChange > 0 then [TxOut(a.feeAsset, a.feeChange, a.feeChangeScript)] else [])
            + [TxOut(a.feeAsset, a.fee, [])]
      && res.value.version == 2
      && res.value.inputs
         == [TxIn(a.fundingTxid, a.fundingVout, if a.kind.ClaimSpend? then 0xffff_fffd else 0xffff_fffe, []),
             TxIn(a.feeInput.txid, a.feeInput.vout, 0xffff_fffd, [])]
      && res.value.lockTime == (if a.kind.ClaimSpend? then 0 else a.contract.terms.refundLockHeight)
      && (a.kind.RefundSpend? ==>
            RefundMature(SpendEnv(crypto, a.contract, res.value, 0, a.fundingAmount), a.contract.terms))
  {
    hide AssetTotal, InputTotal, HtlcOps, EncodeAll;
    var _ :- ValidateSpendArgs(crypto, a);
    ValidContractFacts(crypto, a.contract, LiquidRegtest);
    var lockTime := SpendLockTime(a.kind, a.contract.terms.refundLockHeight);
    if lockTime.Err? {
      return Err(InvalidInput);
    }
    var outputs := SpendOutputs(a);
    forall asset ensures AssetTotal(outputs, asset) == InputTotal([FundedInput(a), a.feeInput], asset) {
      InputTotalOfTwo(FundedInput(a), a.feeInput, asset);
    }
    var inputs := [SpendingInput(a.fundingTxid, a.fundingVout, SpendSequence(a.kind)),
                   SpendingInput(a.feeInput.txid, a.feeInput.vout, REPLACEABLE)];
    return Ok(Tx(2, lockTime.value, inputs, outputs));
  }

  // Signing a Liquid spend.

  /** `sign_p2wpkh_input`, given the digest its script code yields. */
  function SignedWalletInput(crypto: Crypto, tx: Tx, index: nat, input: Utxo, secret: Bytes): Result<Tx, ChainError>
    requires index < |tx.inputs|
  {
    var key := crypto.publicKey(secret);
    if crypto.walletScript(key) != input.script then Err(SignatureError)
    else
      var digest := crypto.sighash(Stripped(tx), index, input.script, input.amount, SIGHASH_ALL);
      Ok(WithItems(tx, index, [EncodedSignature(crypto.sign(secret, digest)), key]))
  }

  /** What building a Liquid spend returns is, once signed under the key of either branch,
      accepted by the contract if it claims or was built as a refund, and a claim gives its
      preimage to the extractor. */
  lemma LiquidSpendIsSpendable(crypto: Crypto, a: LiquidSpend, tx: Tx, secret: Bytes, preimage: Option<Bytes>,
                               signed: Tx)
    requires Lawful(crypto) && Sized(a.contract.terms)
    requires ValidateContractFor(crypto, a.contract, LiquidRegtest).Ok?
    requires tx.inputs
      == [TxIn(a.fundingTxid, a.fundingVout, if a.kind.ClaimSpend? then 0xffff_fffd else 0xffff_fffe, []),
          TxIn(a.feeInput.txid, a.feeInput.vout, 0xffff_fffd, [])]
    requires tx.lockTime == (if a.kind.ClaimSpend? then 0 else a.contract.terms.refundLockHeight)
    requires PreimageFits(crypto, a.contract, preimage) && crypto.publicKey(secret) == BranchKey(a.contract, preimage)
    requires SignsBranch(crypto, tx, a.contract, secret, a.fundingAmount, preimage, signed)
    ensures Spendable(crypto, a.contract, LiquidRegtest, a.kind, a.fundingAmount, preimage, signed)
  {
    SignedSpendRoundTrip(crypto, a.contract, LiquidRegtest, a.kind, tx, secret, a.fundingAmount, preimage, signed);
  }

  /** Signing both inputs succeeds exactly for the branch key and the wallet key, and the
      contract accepts the first input, a refund from its height on. */
  method SignLiquidHtlcSpend(crypto: Crypto, transaction: Tx, c: Contract, feeInput: Utxo, secret: Bytes,
                             feeSecret: Bytes, amount: U64, preimage: Option<Bytes>)
    returns (res: Result<Tx, ChainError>)
    requires Lawful(crypto) && Sized(c.terms) && (preimage.Some? ==> |preimage.value| == 32)
    ensures res.Ok? <==>
      && ValidateContractFor(crypto, c, LiquidRegtest).Ok? && PreimageFits(crypto, c, preimage)
      && |transaction.inputs| == 2
      && transaction.inputs[1].txid == feeInput.txid && transaction.inputs[1].vout == feeInput.vout
      && crypto.publicKey(secret) == BranchKey(c, preimage)
      && crypto.walletScript(crypto.publicKey(feeSecret)) == feeInput.script
    ensures res.Ok? ==>
      && |res.value.inputs| == 2 && Stripped(res.value) == Stripped(transaction)
      && SignsBranch(crypto, transaction, c, secret, amount, preimage, res.value)
      && (var digest := crypto.sighash(Stripped(transaction), 1, feeInput.script, feeInput.amount, 1);
          res.value.inputs[1].items == [crypto.sign(feeSecret, digest) + [1], crypto.publicKey(feeSecret)])
      && ((preimage.None? ==> RefundMature(SpendEnv(crypto, c, res.value, 0, amount), c.terms))
          ==> Accepts(SpendEnv(crypto, c, res.value, 0, amount), c.outputScript, res.value.inputs[0].items))
  {
    var _ :- ValidateContractFor(crypto, c, LiquidRegtest);
    ValidContractFacts(crypto, c, LiquidRegtest);
    var tx := transaction;
    if |tx.inputs| != 2 {
      return Err(Validation);
    }
    if tx.inputs[1].txid != feeInput.txid || tx.inputs[1].vout != feeInput.vout {
      return Err(Validation);
    }
    if preimage.Some? && crypto.sha256(preimage.value) != c.terms.hashLock {
      return Err(Validation);
    }
    if crypto.publicKey(secret) != BranchKey(c, preimage) {
      return Err(SignatureError);
    }
    var script := BuildWitnessScript(c.terms).value;
    var digest := crypto.sighash(Stripped(tx), 0, script, amount, SIGHASH_ALL);
    var items := BranchWitness(script, crypto.sign(secret, digest), preimage);
    tx := WithItems(tx, 0, items);
    StrippedKeeps(transaction, 0, items);
    var both := SignedWalletInput(crypto, tx, 1, feeInput, feeSecret);
    if both.Err? {
      return Err(SignatureError);
    }
    StrippedKeeps(tx, 1, both.value.inputs[1].items);
    tx := both.value;
    if !FullySigned(tx) {
      return Err(Validation);
    }
    if preimage.None? ==> RefundMature(SpendEnv(crypto, c, tx, 0, amount), c.terms) {
      SignedBranchIsAccepted(crypto, c, LiquidRegtest, transaction, 0, amount, secret, preimage, tx);
    }
    return Ok(tx);
  }
}
