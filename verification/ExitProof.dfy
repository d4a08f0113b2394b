/** What an exit may claim from on-chain transactions: the HTLC timeout in a batched transaction,
    the delayed sweep, and the recovered amount (src/exit/proof.rs). Signature and script
    parsing are parameters. */
module ExitProof {
  import opened Wrappers
  import opened Script
  import opened Htlc

  datatype ExitError = Proof | InvalidData

  /** An instruction of a redeem script; only a hash, a push and an equality are told apart. */
  datatype Instruction = Hash160 | Equality | PushBytes(bytes: Bytes) | Other

  datatype Parsers = Parsers(
    crypto: Crypto,
    instructions: Bytes -> Option<seq<Instruction>>,
    signatureType: Bytes -> Option<Byte>)

  const SIGHASH_SINGLE_ANYONE: Byte := 0x83

  // HTLC timeouts.

  predicate HashesPayment(w: seq<Instruction>, hash160: Bytes, k: nat) {
    k + 2 < |w| && w[k].Hash160? && w[k + 1] == PushBytes(hash160) && w[k + 2].Equality?
  }

  /** The redeem script compares a HASH160 with the payment's. */
  predicate CommitsToPayment(p: Parsers, script: Bytes, hash160: Bytes) {
    var w := p.instructions(script);
    w.Some? && exists k :: 0 <= k < |w.value| && HashesPayment(w.value, hash160, k)
  }

  function TimeoutScript(p: Parsers, items: seq<Bytes>, hash160: Bytes): Result<Bytes, ExitError> {
    if items == [] then Err(Proof)
    else if !CommitsToPayment(p, items[|items| - 1], hash160) then Err(Proof)
    else Ok(items[|items| - 1])
  }

  /** The counterparty signed SINGLE|ANYONECANPAY, the local side that or ALL. */
  predicate HasSingleSighash(p: Parsers, items: seq<Bytes>) {
    && |items| == 5 && items[0] == [] && items[3] == []
    && p.signatureType(items[1]) == Some(SIGHASH_SINGLE_ANYONE)
    && p.signatureType(items[2]) in {Some(SIGHASH_ALL), Some(SIGHASH_SINGLE_ANYONE)}
  }

  datatype Candidate = Candidate(vout: U32, script: Bytes)

  datatype Target = Target(
    commitmentTxid: string, hash160: Bytes, candidates: seq<Candidate>, outputScript: Option<Bytes>, amount: U64)

  /** The first candidate for an output index. */
  function FindCandidate(candidates: seq<Candidate>, vout: U32): Option<Candidate> {
    if candidates == [] then None
    else if candidates[0].vout == vout then Some(candidates[0])
    else FindCandidate(candidates[1..], vout)
  }

  predicate DistinctVouts(candidates: seq<Candidate>) {
    forall i, j :: 0 <= i < j < |candidates| ==> candidates[i].vout != candidates[j].vout
  }

  /** With distinct output indices the first candidate is the only one. */
  lemma {:induction false} FindsTheCandidate(candidates: seq<Candidate>, c: Candidate)
    requires DistinctVouts(candidates)
    ensures FindCandidate(candidates, c.vout) == Some(c) <==> c in candidates
  {
    if candidates != [] {
      var rest := candidates[1..];
      forall i, j | 0 <= i < j < |rest| ensures rest[i].vout != rest[j].vout {
        assert rest[i] == candidates[i + 1] && rest[j] == candidates[j + 1];
      }
      FindsTheCandidate(rest, c);
      assert candidates == [candidates[0]] + rest;
      assert c in rest ==> candidates[0].vout != c.vout;
    }
  }

  /** Every condition that ties input `k` and the output of the same index to the target. */
  predicate Binds(p: Parsers, tx: Tx, t: Target, k: nat)
    requires Lawful(p.crypto)
  {
    && k < |tx.inputs| && k < |tx.outputs|
    && tx.inputs[k].txid == t.commitmentTxid
    && tx.inputs[k].items != []
    && CommitsToPayment(p, tx.inputs[k].items[|tx.inputs[k].items| - 1], t.hash160)
    && FindCandidate(t.candidates, tx.inputs[k].vout)
       == Some(Candidate(tx.inputs[k].vout, ToP2wsh(p.crypto, tx.inputs[k].items[|tx.inputs[k].items| - 1])))
    && HasSingleSighash(p, tx.inputs[k].items)
    && tx.outputs[k].value == t.amount
    && (t.outputScript.Some? ==> tx.outputs[k].script == t.outputScript.value)
  }

  lemma {:induction false} FindsFirst(candidates: seq<Candidate>, c: Candidate)
    ensures FindCandidate(candidates, c.vout) == Some(c) <==> IsFirst(candidates, c)
  {
    if candidates != [] {
      if candidates[0].vout == c.vout {
        FirstOfAll(candidates, c);
      } else {
        FindsFirst(candidates[1..], c);
        SkipsFirst(candidates, c);
      }
    }
  }

  lemma FirstOfAll(candidates: seq<Candidate>, c: Candidate)
    requires candidates != [] && candidates[0].vout == c.vout
    ensures IsFirst(candidates, c) <==> candidates[0] == c
  {
    if IsFirst(candidates, c) {
      var j :| 0 <= j < |candidates| && candidates[j] == c && forall i :: 0 <= i < j ==> candidates[i].vout != c.vout;
      assert j == 0;
    }
  }

  lemma SkipsFirst(candidates: seq<Candidate>, c: Candidate)
    requires candidates != [] && candidates[0].vout != c.vout
    ensures IsFirst(candidates, c) <==> IsFirst(candidates[1..], c)
  {
    var rest := candidates[1..];
    if IsFirst(rest, c) {
      var j :| 0 <= j < |rest| && rest[j] == c && forall i :: 0 <= i < j ==> rest[i].vout != c.vout;
      forall i | 0 <= i < j + 1 ensures candidates[i].vout != c.vout {
        assert i > 0 ==> candidates[i] == rest[i - 1];
      }
      assert candidates[j + 1] == c;
    }
    if IsFirst(candidates, c) {
      var j :| 0 <= j < |candidates| && candidates[j] == c && forall i :: 0 <= i < j ==> candidates[i].vout != c.vout;
      forall i | 0 <= i < j - 1 ensures rest[i].vout != c.vout {
        assert rest[i] == candidates[i + 1];
      }
      assert rest[j - 1] == c;
    }
  }

  /** `c` is listed, and nothing before it names its output. */
  ghost predicate IsFirst(candidates: seq<Candidate>, c: Candidate) {
    exists j :: 0 <= j < |candidates| && candidates[j] == c && forall i :: 0 <= i < j ==> candidates[i].vout != c.vout
  }

  /** What binds an input to the target, item by item: five witness items, the first and the fourth
      empty, the counterparty's signature SINGLE|ANYONECANPAY (0x83), the local one that or ALL (1),
      and a redeem script that compares a HASH160 with the payment's and is the first listed for the
      output the input spends; the output of the same index carries the amount, to the expected
      script if there is one. */
  lemma BindsIff(p: Parsers, tx: Tx, t: Target, k: nat)
    requires Lawful(p.crypto)
    ensures Binds(p, tx, t, k) <==>
      && k < |tx.inputs| && k < |tx.outputs| && tx.inputs[k].txid == t.commitmentTxid
      && tx.outputs[k].value == t.amount
      && (t.outputScript == None || t.outputScript == Some(tx.outputs[k].script))
      && var w := tx.inputs[k].items;
         && |w| == 5 && w[0] == [] && w[3] == []
         && p.signatureType(w[1]) == Some(0x83)
         && (p.signatureType(w[2]) == Some(1) || p.signatureType(w[2]) == Some(0x83))
         && (exists ops, i: nat ::
               && p.instructions(w[4]) == Some(ops) && i + 2 < |ops|
               && ops[i] == Hash160 && ops[i + 1] == PushBytes(t.hash160) && ops[i + 2] == Equality)
         && IsFirst(t.candidates, Candidate(tx.inputs[k].vout, [0, 32] + p.crypto.sha256(w[4])))
  {
    if k < |tx.inputs| && |tx.inputs[k].items| == 5 {
      var script := tx.inputs[k].items[4];
      FindsFirst(t.candidates, Candidate(tx.inputs[k].vout, ToP2wsh(p.crypto, script)));
      CommitsIff(p, script, t.hash160);
    }
  }

  lemma CommitsIff(p: Parsers, script: Bytes, hash160: Bytes)
    ensures CommitsToPayment(p, script, hash160) <==>
      exists ops, i: nat ::
        && p.instructions(script) == Some(ops) && i + 2 < |ops|
        && ops[i] == Hash160 && ops[i + 1] == PushBytes(hash160) && ops[i + 2] == Equality
  {
    if CommitsToPayment(p, script, hash160) {
      var ops := p.instructions(script).value;
      var i :| 0 <= i < |ops| && HashesPayment(ops, hash160, i);
      assert ops[i] == Hash160;
    }
    if ops, i: nat :|
      && p.instructions(script) == Some(ops) && i + 2 < |ops|
      && ops[i] == Hash160 && ops[i + 1] == PushBytes(hash160) && ops[i + 2] == Equality {
      assert HashesPayment(ops, hash160, i);
    }
  }

  datatype TimeoutProof = TimeoutProof(
    commitmentVout: U32, inputIndex: nat, outputIndex: nat, amount: U64, outputScript: Bytes, lockTime: U32,
    sequence: U32)

  /** The search succeeds exactly when some input meets every condition, takes the least such
      input, and pairs it with the output of the same index, as SIGHASH_SINGLE signs it in
      BOLT 3, "HTLC-Timeout and HTLC-Success Transactions". */
  method FindTimeoutProof(p: Parsers, tx: Tx, t: Target) returns (res: Result<TimeoutProof, ExitError>)
    requires Lawful(p.crypto)
    ensures res.Ok? <==> exists k :: 0 <= k < |tx.inputs| && Binds(p, tx, t, k)
    ensures res.Ok? ==>
      var k := res.value.inputIndex;
      && Binds(p, tx, t, k) && (forall j :: 0 <= j < k ==> !Binds(p, tx, t, j))
      && res.value == TimeoutProof(tx.inputs[k].vout, k, k, tx.outputs[k].value, tx.outputs[k].script, tx.lockTime,
                                   tx.inputs[k].sequence)
  {
    for k := 0 to |tx.inputs|
      invariant forall j :: 0 <= j < k ==> !Binds(p, tx, t, j)
    {
      var input := tx.inputs[k];
      var found := FindCandidate(t.candidates, input.vout);
      if found.None? {
        continue;
      }
      if input.txid != t.commitmentTxid || k >= |tx.outputs| {
        continue;
      }
      var script := TimeoutScript(p, input.items, t.hash160);
      if script.Err? {
        continue;
      }
      CandidateHasVout(t.candidates, input.vout);
      if ToP2wsh(p.crypto, script.value) != found.value.script || !HasSingleSighash(p, input.items) {
        continue;
      }
      var output := tx.outputs[k];
      if output.value != t.amount || (t.outputScript.Some? && output.script != t.outputScript.value) {
        continue;
      }
      assert Binds(p, tx, t, k);
      return Ok(TimeoutProof(input.vout, k, k, output.value, output.script, tx.lockTime, input.sequence));
    }
    return Err(Proof);
  }

  lemma {:induction false} CandidateHasVout(candidates: seq<Candidate>, vout: U32)
    ensures FindCandidate(candidates, vout).Some? ==> FindCandidate(candidates, vout).value.vout == vout
  {
    if candidates != [] {
      CandidateHasVout(candidates[1..], vout);
    }
  }

  // Delayed sweeps.

  /** `sequence & mask`, for the single bit that weighs `weight`. */
  predicate BitSet(sequence: U32, weight: nat)
    requires weight > 0
  {
    sequence / weight % 2 == 1
  }

  function ValidateCsvSequence(sequence: U32, requiredCsv: nat): Result<(), ExitError> {
    if BitSet(sequence, 0x8000_0000) || BitSet(sequence, 0x40_0000) || sequence % 0x1_0000 < requiredCsv then Err(Proof)
    else Ok(())
  }

  /** BIP 68, "Specification": a sequence with the halves `high` and `delay` passes exactly when
      relative locking is on, blocks are counted and the delay is at least the required one. */
  lemma CsvSequenceMeansBlocks(high: nat, delay: nat, requiredCsv: nat)
    requires high < 0x1_0000 && delay < 0x1_0000
    ensures ValidateCsvSequence(high * 0x1_0000 + delay, requiredCsv).Ok?
       <==> high < 0x8000 && high / 0x40 % 2 == 0 && requiredCsv <= delay
  {
    var sequence := high * 0x1_0000 + delay;
    assert sequence / 0x40_0000 == high / 0x40 && sequence / 0x8000_0000 == high / 0x8000;
  }

  function OutputTotal(outputs: seq<TxOut>): nat {
    if outputs == [] then 0 else OutputTotal(outputs[..|outputs| - 1]) + outputs[|outputs| - 1].value
  }

  /** The checked fold over the owned outputs. */
  function OwnedAmount(outputs: seq<TxOut>, owned: set<Bytes>): Option<U64> {
    if outputs == [] then Some(0)
    else
      var total :- OwnedAmount(outputs[..|outputs| - 1], owned);
      var last := outputs[|outputs| - 1];
      if last.script in owned then CheckedAdd(total, last.value) else Some(total)
  }

  function VerifyOwnedOutputs(tx: Tx, owned: set<Bytes>): Result<U64, ExitError> {
    if exists i :: 0 <= i < |tx.outputs| && tx.outputs[i].value > 0 && tx.outputs[i].script !in owned then Err(Proof)
    else
      match OwnedAmount(tx.outputs, owned)
      case None => Err(Proof)
      case Some(amount) =>
        if amount == 0 || (forall i :: 0 <= i < |tx.outputs| ==> tx.outputs[i].script !in owned) then Err(Proof)
        else Ok(amount)
  }

  predicate OwnsAllValue(outputs: seq<TxOut>, owned: set<Bytes>) {
    forall i :: 0 <= i < |outputs| && outputs[i].value > 0 ==> outputs[i].script in owned
  }

  lemma {:induction false} OwnedIsTotal(outputs: seq<TxOut>, owned: set<Bytes>)
    requires OwnsAllValue(outputs, owned)
    ensures OwnedAmount(outputs, owned)
      == if OutputTotal(outputs) < U64_BOUND then Some(OutputTotal(outputs)) else None
  {
    if outputs != [] {
      var front := outputs[..|outputs| - 1];
      assert forall i :: 0 <= i < |front| ==> front[i] == outputs[i];
      OwnedIsTotal(front, owned);
      assert outputs[|outputs| - 1].value > 0 ==> outputs[|outputs| - 1].script in owned;
    }
  }

  lemma {:induction false} NothingOwnedIsNothing(outputs: seq<TxOut>, owned: set<Bytes>)
    requires OwnsAllValue(outputs, owned) && forall i :: 0 <= i < |outputs| ==> outputs[i].script !in owned
    ensures OutputTotal(outputs) == 0
  {
    if outputs != [] {
      var front := outputs[..|outputs| - 1];
      assert forall i :: 0 <= i < |front| ==> front[i] == outputs[i];
      NothingOwnedIsNothing(front, owned);
      assert outputs[|outputs| - 1].script !in owned;
    }
  }

  /** Ownership is all or nothing: accepted transactions pay every positive output to the wallet,
      and the amount is the sum of all outputs. */
  lemma OwnedOutputsAreAll(tx: Tx, owned: set<Bytes>)
    ensures VerifyOwnedOutputs(tx, owned).Ok?
       <==> OwnsAllValue(tx.outputs, owned) && 0 < OutputTotal(tx.outputs) < U64_BOUND
    ensures VerifyOwnedOutputs(tx, owned).Ok? ==> VerifyOwnedOutputs(tx, owned).value == OutputTotal(tx.outputs)
  {
    if OwnsAllValue(tx.outputs, owned) {
      OwnedIsTotal(tx.outputs, owned);
      if forall i :: 0 <= i < |tx.outputs| ==> tx.outputs[i].script !in owned {
        NothingOwnedIsNothing(tx.outputs, owned);
      }
    }
  }

  datatype CsvArgs = CsvArgs(
    sourceTxid: string, sourceVout: U32, requiredCsv: nat, sourceHeight: U64, sweepHeight: U64, owned: set<Bytes>)

  datatype CsvProof = CsvProof(inputIndex: nat, sequence: U32, recovered: U64)

  predicate SpendsSource(tx: Tx, a: CsvArgs, k: nat) {
    k < |tx.inputs| && tx.inputs[k].txid == a.sourceTxid && tx.inputs[k].vout == a.sourceVout
  }

  /** The first input that spends the source output. */
  function FindSource(tx: Tx, a: CsvArgs, k: nat): (r: Option<nat>)
    requires k <= |tx.inputs|
    ensures r.Some? ==> SpendsSource(tx, a, r.value) && forall j :: k <= j < r.value ==> !SpendsSource(tx, a, j)
    ensures r.None? ==> forall j :: k <= j < |tx.inputs| ==> !SpendsSource(tx, a, j)
    decreases |tx.inputs| - k
  {
    if k == |tx.inputs| then None
    else if SpendsSource(tx, a, k) then Some(k)
    else FindSource(tx, a, k + 1)
  }

  function IdentifyCsvSpend(tx: Tx, a: CsvArgs): Result<CsvProof, ExitError> {
    match FindSource(tx, a, 0)
    case None => Err(Proof)
    case Some(k) =>
      var _ :- ValidateCsvSequence(tx.inputs[k].sequence, a.requiredCsv);
      if a.sweepHeight < a.sourceHeight || a.sweepHeight - a.sourceHeight < a.requiredCsv then Err(Proof)
      else
        var amount :- VerifyOwnedOutputs(tx, a.owned);
        Ok(CsvProof(k, tx.inputs[k].sequence, amount))
  }

  /** An accepted sweep recovers the sum of all its outputs, under a block-mode sequence and at a
      mature height. */
  lemma CsvSpendRecoversAll(tx: Tx, a: CsvArgs)
    requires IdentifyCsvSpend(tx, a).Ok?
    ensures var proof := IdentifyCsvSpend(tx, a).value;
      && SpendsSource(tx, a, proof.inputIndex)
      && proof.sequence == tx.inputs[proof.inputIndex].sequence
      && proof.recovered == OutputTotal(tx.outputs) && OwnsAllValue(tx.outputs, a.owned)
      && a.sweepHeight >= a.sourceHeight + a.requiredCsv
      && ValidateCsvSequence(proof.sequence, a.requiredCsv).Ok?
  {
    OwnedOutputsAreAll(tx, a.owned);
  }

  /** Relative locking is on, in blocks, for at least the required delay. */
  predicate CountsBlocks(sequence: U32, requiredCsv: nat) {
    !BitSet(sequence, 0x8000_0000) && !BitSet(sequence, 0x40_0000) && requiredCsv <= sequence % 0x1_0000
  }

  /** Input `k` spends the source output, and none before it does. */
  predicate FirstSource(tx: Tx, a: CsvArgs, k: nat) {
    && k < |tx.inputs| && tx.inputs[k].txid == a.sourceTxid && tx.inputs[k].vout == a.sourceVout
    && forall j :: 0 <= j < k ==> tx.inputs[j].txid != a.sourceTxid || tx.inputs[j].vout != a.sourceVout
  }

  /** Exactly when a sweep is accepted: its first input that spends the source output counts blocks
      up to the required delay, the delay has passed between the heights, and every positive output
      is owned, with a positive sum that fits. */
  lemma CsvSpendIsExact(tx: Tx, a: CsvArgs)
    ensures IdentifyCsvSpend(tx, a).Ok? <==>
      && (exists k: nat :: FirstSource(tx, a, k) && CountsBlocks(tx.inputs[k].sequence, a.requiredCsv))
      && a.sweepHeight >= a.sourceHeight + a.requiredCsv
      && OwnsAllValue(tx.outputs, a.owned) && 0 < OutputTotal(tx.outputs) < U64_BOUND
    ensures IdentifyCsvSpend(tx, a).Ok? ==>
      var proof := IdentifyCsvSpend(tx, a).value;
      && FirstSource(tx, a, proof.inputIndex) && proof.sequence == tx.inputs[proof.inputIndex].sequence
      && proof.recovered == OutputTotal(tx.outputs)
  {
    hide VerifyOwnedOutputs, BitSet;
    OwnedOutputsAreAll(tx, a.owned);
    var found := FindSource(tx, a, 0);
    if found.Some? {
      forall j | 0 <= j < found.value
        ensures tx.inputs[j].txid != a.sourceTxid || tx.inputs[j].vout != a.sourceVout
      {
        assert !SpendsSource(tx, a, j);
      }
      assert FirstSource(tx, a, found.value);
    }
    forall k: nat | FirstSource(tx, a, k) ensures found == Some(k) {
      assert SpendsSource(tx, a, k);
    }
  }

  // Accounting.

  datatype Recovery = Recovery(attributable: U64, net: U64)

  function AccountExitRecovery(principal: U64, timeoutOutput: U64, timeoutFee: U64, finalSweep: U64, finalFee: U64)
    : Result<Recovery, ExitError>
  {
    if timeoutOutput > principal then Err(Proof)
    else
      match CheckedAdd(finalSweep, finalFee)
      case None => Err(Proof)
      case Some(gross) =>
        var attributable := Min(gross, principal);
        match CheckedAdd(timeoutFee, finalFee)
        case None => Err(Proof)
        case Some(deductions) => Ok(Recovery(attributable, SaturatingSub(attributable, deductions)))
  }

  function Floored(n: int): nat {
    if n < 0 then 0 else n
  }

  /** Accounting succeeds exactly when the timeout output is within the principal and both sums
      fit; the sweep is attributed up to the principal. Net recovery is the smaller of two claims,
      each floored at zero: the principal less both fees, and the final sweep less the timeout fee. */
  lemma RecoveryIsConservative(principal: U64, timeoutOutput: U64, timeoutFee: U64, finalSweep: U64, finalFee: U64)
    ensures var res := AccountExitRecovery(principal, timeoutOutput, timeoutFee, finalSweep, finalFee);
      && (res.Ok? <==>
            && timeoutOutput <= principal && finalSweep + finalFee < 0x1_0000_0000_0000_0000
            && timeoutFee + finalFee < 0x1_0000_0000_0000_0000)
      && (res.Ok? ==>
            var gross := finalSweep + finalFee;
            var byPrincipal, bySweep := Floored(principal - timeoutFee - finalFee), Floored(finalSweep - timeoutFee);
            && res.value.attributable == (if gross < principal then gross else principal)
            && res.value.net == if byPrincipal < bySweep then byPrincipal else bySweep)
  {
  }
}
