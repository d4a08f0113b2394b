/** The hash-locked contract script, the transactions that spend it and what its witnesses
    reveal (src/chain/htlc_script.rs, src/chain/bitcoin.rs, src/chain/liquid.rs). */
module Htlc {
  import opened Wrappers
  import opened Script

  /** A 32-byte hash lock, two compressed keys and the absolute refund height. */
  datatype Terms = Terms(hashLock: Bytes, claimKey: Bytes, refundKey: Bytes, refundLockHeight: U64)

  /** The sizes the program's types fix. */
  predicate Sized(c: Terms) {
    |c.hashLock| == 32 && |c.claimKey| == 33 && |c.refundKey| == 33
  }

  datatype ChainError = InvalidInput | Validation | SignatureError

  function ValidateLockHeight(height: U64): Result<(), ChainError> {
    if 1 <= height < LOCKTIME_THRESHOLD then Ok(()) else Err(InvalidInput)
  }

  /** The builder spells 1 to 16 as opcodes and anything larger as a number pushed minimally. */
  function PushInt(n: nat): Op
    requires n > 0
  {
    if n <= 16 then Small(n) else Push(ScriptNum(n))
  }

  function HtlcOps(c: Terms): seq<Op>
    requires c.refundLockHeight > 0
  {
    [If,
     Size, PushInt(32), EqualVerify, Sha256, Push(c.hashLock), EqualVerify, Push(c.claimKey), CheckSig,
     Else,
     PushInt(c.refundLockHeight), Cltv, Drop, Push(c.refundKey), CheckSig,
     EndIf]
  }

  lemma OpsAreValid(c: Terms)
    requires Sized(c) && ValidateLockHeight(c.refundLockHeight).Ok?
    ensures forall op :: op in HtlcOps(c) ==> ValidOp(op)
    ensures |ScriptNum(c.refundLockHeight)| <= 5 && |ScriptNum(32)| <= 5
  {
    assert Pow256(4) == 0x1_0000_0000;
    LittleEndianIsShort(c.refundLockHeight, 4);
    LittleEndianIsShort(32, 4);
    assert ScriptNum(c.refundLockHeight) != [];
    assert ScriptNum(32) != [];
  }

  function BuildWitnessScript(c: Terms): (res: Result<Bytes, ChainError>)
    requires Sized(c)
    ensures res.Ok? <==> 1 <= c.refundLockHeight < LOCKTIME_THRESHOLD
    ensures res.Ok? ==> DecodeAll(res.value) == Some(HtlcOps(c))
  {
    var _ :- ValidateLockHeight(c.refundLockHeight);
    OpsAreValid(c);
    ScriptDecodes(HtlcOps(c));
    Ok(EncodeAll(HtlcOps(c)))
  }

  /** How the builder spells the refund height: 1 to 16 in one byte, otherwise its length and its
      little-endian bytes, with a zero byte where the top bit would read as a sign. */
  function HeightBytes(height: nat): Bytes
    requires 0 < height < LOCKTIME_THRESHOLD
  {
    assert Pow256(4) == 0x1_0000_0000;
    LittleEndianIsShort(height, 4);
    if height <= 16 then [0x50 + height] else [|ScriptNum(height)|] + ScriptNum(height)
  }

  lemma Prepends(op: Op, rest: seq<Op>)
    requires ValidOp(op) && forall o :: o in rest ==> ValidOp(o)
    ensures EncodeAll([op] + rest) == Encode(op) + EncodeAll(rest)
  {
    assert ([op] + rest)[1..] == rest;
  }

  lemma CheckSigBytes()
    ensures EncodeAll([CheckSig, EndIf]) == [0xac, 0x68]
  {
    Prepends(EndIf, []);
    Prepends(CheckSig, [EndIf]);
    assert [CheckSig] + [EndIf] == [CheckSig, EndIf] && [EndIf] == [EndIf] + [];
  }

  lemma RefundKeyBytes(key: Bytes)
    requires |key| == 33
    ensures EncodeAll([Drop, Push(key), CheckSig, EndIf]) == [0x75, 0x21] + key + [0xac, 0x68]
  {
    hide EncodeAll, Encode;
    CheckSigBytes();
    var t1 := [CheckSig, EndIf];
    var t2 := [Push(key)] + t1;
    Prepends(Push(key), t1);
    Prepends(Drop, t2);
    KeyPush(key);
    assert [Drop] + t2 == [Drop, Push(key), CheckSig, EndIf];
    assert [0x75] + (([0x21] + key) + [0xac, 0x68]) == [0x75, 0x21] + key + [0xac, 0x68];
  }

  lemma KeyPush(key: Bytes)
    requires |key| == 33
    ensures Encode(Drop) == [0x75] && Encode(Push(key)) == [0x21] + key
  {
  }

  lemma RefundBranchBytes(c: Terms)
    requires Sized(c) && ValidateLockHeight(c.refundLockHeight).Ok? && ValidOp(PushInt(c.refundLockHeight))
    ensures EncodeAll([Else, PushInt(c.refundLockHeight), Cltv, Drop, Push(c.refundKey), CheckSig, EndIf])
      == [0x67] + HeightBytes(c.refundLockHeight) + [0xb1, 0x75, 0x21] + c.refundKey + [0xac, 0x68]
  {
    hide EncodeAll, ScriptNum, PushInt, HeightBytes;
    EncodesHeight(c.refundLockHeight);
    RefundKeyBytes(c.refundKey);
    var tail := [Drop, Push(c.refundKey), CheckSig, EndIf];
    Prepends(Cltv, tail);
    Prepends(PushInt(c.refundLockHeight), [Cltv] + tail);
    Prepends(Else, [PushInt(c.refundLockHeight)] + ([Cltv] + tail));
    assert [Else] + ([PushInt(c.refundLockHeight)] + ([Cltv] + tail))
      == [Else, PushInt(c.refundLockHeight), Cltv, Drop, Push(c.refundKey), CheckSig, EndIf];
    assert [0xb1] + ([0x75, 0x21] + c.refundKey + [0xac, 0x68]) == [0xb1, 0x75, 0x21] + c.refundKey + [0xac, 0x68];
  }

  lemma EncodesHeight(height: nat)
    requires 0 < height < LOCKTIME_THRESHOLD && ValidOp(PushInt(height))
    ensures Encode(PushInt(height)) == HeightBytes(height)
  {
    hide ScriptNum;
  }

  lemma ThirtyTwo()
    ensures Encode(PushInt(32)) == [1, 32]
  {
    assert LittleEndian(32) == [32] + LittleEndian(0);
  }

  lemma ClaimBranchBytes(c: Terms, rest: seq<Op>)
    requires Sized(c) && ValidOp(PushInt(32)) && forall o :: o in rest ==> ValidOp(o)
    ensures EncodeAll([If, Size, PushInt(32), EqualVerify, Sha256, Push(c.hashLock), EqualVerify, Push(c.claimKey),
                       CheckSig] + rest)
      == [0x63, 0x82, 1, 32, 0x88, 0xa8, 0x20] + c.hashLock + [0x88, 0x21] + c.claimKey + [0xac] + EncodeAll(rest)
  {
    hide EncodeAll, ScriptNum;
    ThirtyTwo();
    var t0 := [CheckSig] + rest;
    Prepends(CheckSig, rest);
    var t1 := [Push(c.claimKey)] + t0;
    Prepends(Push(c.claimKey), t0);
    var t2 := [EqualVerify] + t1;
    Prepends(EqualVerify, t1);
    var t3 := [Push(c.hashLock)] + t2;
    Prepends(Push(c.hashLock), t2);
    var t4 := [Sha256] + t3;
    Prepends(Sha256, t3);
    var t5 := [EqualVerify] + t4;
    Prepends(EqualVerify, t4);
    var t6 := [PushInt(32)] + t5;
    Prepends(PushInt(32), t5);
    var t7 := [Size] + t6;
    Prepends(Size, t6);
    Prepends(If, t7);
    assert [If] + t7 == [If, Size, PushInt(32), EqualVerify, Sha256, Push(c.hashLock), EqualVerify, Push(c.claimKey),
                         CheckSig] + rest;
  }

  /** The script byte for byte. */
  lemma ScriptBytes(c: Terms)
    requires Sized(c) && BuildWitnessScript(c).Ok?
    ensures BuildWitnessScript(c).value
      == [0x63, 0x82, 1, 32, 0x88, 0xa8, 0x20] + c.hashLock + [0x88, 0x21] + c.claimKey
         + [0xac, 0x67] + HeightBytes(c.refundLockHeight) + [0xb1, 0x75, 0x21] + c.refundKey + [0xac, 0x68]
  {
    hide EncodeAll, ScriptNum, HeightBytes, PushInt;
    OpsAreValid(c);
    var rest := [Else, PushInt(c.refundLockHeight), Cltv, Drop, Push(c.refundKey), CheckSig, EndIf];
    assert forall op :: op in rest ==> op in HtlcOps(c);
    assert PushInt(32) in HtlcOps(c);
    RefundBranchBytes(c);
    ClaimBranchBytes(c, rest);
    assert HtlcOps(c) == [If, Size, PushInt(32), EqualVerify, Sha256, Push(c.hashLock), EqualVerify, Push(c.claimKey),
                          CheckSig] + rest;
  }

  // What the script accepts.

  /** The bytes a small or a pushed number leaves on the stack. */
  lemma PushIntPushes(env: Env, n: nat, st: State)
    requires 0 < n
    ensures Execute(env, PushInt(n), st) == Some(Pushed(st, ScriptNum(n)))
  {
    if n <= 16 {
      assert n % 256 == n && n / 256 == 0;
      assert LittleEndian(n) == [n] + LittleEndian(0) == [n];
    }
  }

  predicate ClaimStack(env: Env, c: Terms, s: seq<Bytes>) {
    && |s| == 3
    && Truthy(s[2])
    && |s[1]| == 32 && env.crypto.sha256(s[1]) == c.hashLock
    && SignatureValid(env, s[0], c.claimKey)
  }

  /** The transaction's lock time is a height at or above the refund height, and the spending
      input is not final. */
  predicate RefundMature(env: Env, c: Terms) {
    && env.index < |env.tx.inputs|
    && c.refundLockHeight <= env.tx.lockTime < LOCKTIME_THRESHOLD
    && env.tx.inputs[env.index].sequence != FINAL_SEQUENCE
  }

  predicate RefundStack(env: Env, c: Terms, s: seq<Bytes>) {
    && |s| == 2
    && !Truthy(s[1])
    && SignatureValid(env, s[0], c.refundKey)
    && RefundMature(env, c)
  }

  /** One executed operation. */
  lemma Steps(env: Env, ops: seq<Op>, pc: nat, st: State)
    requires pc < |ops|
    ensures Run(env, ops, pc, st)
      == (var next := Step(env, ops[pc], st); if next.None? then None else Run(env, ops, pc + 1, next.value))
  {
  }

  /** A branch that is not taken leaves the stack alone. */
  lemma {:induction false} Skips(env: Env, ops: seq<Op>, pc: nat, end: nat, s: seq<Bytes>)
    requires pc <= end <= |ops|
    requires forall k :: pc <= k < end ==> !(ops[k].If? || ops[k].Else? || ops[k].EndIf?)
    ensures Run(env, ops, pc, State(s, [false])) == Run(env, ops, end, State(s, [false]))
    decreases end - pc
  {
    if pc < end {
      Skips(env, ops, pc + 1, end, s);
    }
  }

  lemma LockIsReached(env: Env, c: Terms)
    requires Sized(c) && ValidateLockHeight(c.refundLockHeight).Ok?
    ensures LockTimeReached(env, ScriptNum(c.refundLockHeight)) <==> RefundMature(env, c)
  {
    OpsAreValid(c);
    NumDecodes(c.refundLockHeight);
  }

  /** The size check passes for 32 bytes only. */
  lemma SizeIs32(item: Bytes)
    ensures ScriptNum(|item|) == ScriptNum(32) <==> |item| == 32
  {
    NumDecodes(|item|);
    NumDecodes(32);
  }

  /** The end of the script closes the branch. */
  lemma Closes(env: Env, c: Terms, s: seq<Bytes>, taken: bool)
    requires ValidateLockHeight(c.refundLockHeight).Ok?
    ensures Run(env, HtlcOps(c), 15, State(s, [taken])) == Some(State(s, []))
  {
    hide Execute;
    Steps(env, HtlcOps(c), 15, State(s, [taken]));
    assert State(s, [taken]).conds[..0] == [];
    assert Run(env, HtlcOps(c), 16, State(s, [])) == Some(State(s, []));
  }

  /** After the taken claim branch the refund branch is skipped. */
  lemma ClaimEnds(env: Env, c: Terms, s: seq<Bytes>)
    requires ValidateLockHeight(c.refundLockHeight).Ok?
    ensures Run(env, HtlcOps(c), 9, State(s, [true])) == Some(State(s, []))
  {
    hide Execute;
    Steps(env, HtlcOps(c), 9, State(s, [true]));
    assert State(s, [true]).conds[..0] + [false] == [false];
    Skips(env, HtlcOps(c), 10, 15, s);
    Closes(env, c, s, false);
  }

  /** Pushing the size and 32, then comparing them, leaves the stack as it was. */
  lemma SizeCompares(env: Env, s: seq<Bytes>)
    requires s != []
    ensures var size := ScriptNum(|s[|s| - 1]|);
      && Execute(env, Size, State(s, [true])) == Some(State(s + [size], [true]))
      && Execute(env, EqualVerify, State(s + [size] + [ScriptNum(32)], [true]))
         == if |s[|s| - 1]| == 32 then Some(State(s, [true])) else None
  {
    var size := ScriptNum(|s[|s| - 1]|);
    SizeIs32(s[|s| - 1]);
    assert (s + [size] + [ScriptNum(32)])[..|s|] == s;
  }

  lemma SizeChecks(env: Env, c: Terms, s: seq<Bytes>)
    requires ValidateLockHeight(c.refundLockHeight).Ok? && s != []
    ensures Run(env, HtlcOps(c), 1, State(s, [true]))
      == if |s[|s| - 1]| == 32 then Run(env, HtlcOps(c), 4, State(s, [true])) else None
  {
    hide Execute, ScriptNum, Run;
    var ops, size := HtlcOps(c), ScriptNum(|s[|s| - 1]|);
    SizeCompares(env, s);
    Steps(env, ops, 1, State(s, [true]));
    PushIntPushes(env, 32, State(s + [size], [true]));
    Steps(env, ops, 2, State(s + [size], [true]));
    Steps(env, ops, 3, State(s + [size] + [ScriptNum(32)], [true]));
  }

  lemma HashChecks(env: Env, c: Terms, s: seq<Bytes>)
    requires ValidateLockHeight(c.refundLockHeight).Ok? && s != []
    ensures Run(env, HtlcOps(c), 4, State(s, [true]))
      == if env.crypto.sha256(s[|s| - 1]) == c.hashLock then
           Run(env, HtlcOps(c), 7, State(s[..|s| - 1], [true]))
         else None
  {
    hide Run, ScriptNum;
    var ops, front := HtlcOps(c), s[..|s| - 1];
    var hashed := front + [env.crypto.sha256(s[|s| - 1])];
    Steps(env, ops, 4, State(s, [true]));
    Steps(env, ops, 5, State(hashed, [true]));
    Steps(env, ops, 6, State(hashed + [c.hashLock], [true]));
    assert (hashed + [c.hashLock])[..|front|] == front;
  }

  function Verdict(valid: bool): Bytes {
    if valid then [1] else []
  }

  lemma ClaimSignatureChecks(env: Env, c: Terms, s: seq<Bytes>)
    requires ValidateLockHeight(c.refundLockHeight).Ok?
    ensures Run(env, HtlcOps(c), 7, State(s, [true]))
      == if s == [] then None
         else Some(State(s[..|s| - 1] + [Verdict(SignatureValid(env, s[|s| - 1], c.claimKey))], []))
  {
    hide Run, ScriptNum, SignatureValid;
    var ops := HtlcOps(c);
    Steps(env, ops, 7, State(s, [true]));
    Steps(env, ops, 8, State(s + [c.claimKey], [true]));
    if s != [] {
      var after := s[..|s| - 1] + [Verdict(SignatureValid(env, s[|s| - 1], c.claimKey))];
      assert (s + [c.claimKey])[..|s| - 1] == s[..|s| - 1];
      ClaimEnds(env, c, after);
    }
  }

  lemma LockChecks(env: Env, c: Terms, s: seq<Bytes>)
    requires Sized(c) && ValidateLockHeight(c.refundLockHeight).Ok?
    ensures Run(env, HtlcOps(c), 10, State(s, [true]))
      == if RefundMature(env, c) then Run(env, HtlcOps(c), 13, State(s, [true])) else None
  {
    hide ScriptNum, LockTimeReached, RefundMature;
    var ops, lock := HtlcOps(c), ScriptNum(c.refundLockHeight);
    PushIntPushes(env, c.refundLockHeight, State(s, [true]));
    Steps(env, ops, 10, State(s, [true]));
    Steps(env, ops, 11, State(s + [lock], [true]));
    LockIsReached(env, c);
    Steps(env, ops, 12, State(s + [lock], [true]));
    assert (s + [lock])[..|s|] == s;
  }

  lemma RefundLockChecks(env: Env, c: Terms, s: seq<Bytes>)
    requires Sized(c) && ValidateLockHeight(c.refundLockHeight).Ok?
    ensures Run(env, HtlcOps(c), 1, State(s, [false]))
      == if RefundMature(env, c) then Run(env, HtlcOps(c), 13, State(s, [true])) else None
  {
    hide RefundMature;
    Skips(env, HtlcOps(c), 1, 9, s);
    Steps(env, HtlcOps(c), 9, State(s, [false]));
    assert State(s, [false]).conds[..0] + [true] == [true];
    LockChecks(env, c, s);
  }

  lemma RefundSignatureChecks(env: Env, c: Terms, s: seq<Bytes>)
    requires ValidateLockHeight(c.refundLockHeight).Ok?
    ensures Run(env, HtlcOps(c), 13, State(s, [true]))
      == if s == [] then None
         else Some(State(s[..|s| - 1] + [Verdict(SignatureValid(env, s[|s| - 1], c.refundKey))], []))
  {
    hide Run, ScriptNum, SignatureValid;
    var ops := HtlcOps(c);
    Steps(env, ops, 13, State(s, [true]));
    Steps(env, ops, 14, State(s + [c.refundKey], [true]));
    if s != [] {
      var after := s[..|s| - 1] + [Verdict(SignatureValid(env, s[|s| - 1], c.refundKey))];
      assert (s + [c.refundKey])[..|s| - 1] == s[..|s| - 1];
      Closes(env, c, after, true);
    }
  }

  lemma VerdictIsTruth(valid: bool)
    ensures Truthy(Verdict(valid)) <==> valid
  {
    if valid {
      assert Verdict(valid)[0] == 1;
    }
  }

  /** The last item selects the branch. */
  lemma SelectorPops(env: Env, c: Terms, s: seq<Bytes>)
    requires ValidateLockHeight(c.refundLockHeight).Ok? && s != []
    ensures Run(env, HtlcOps(c), 0, State(s, []))
      == Run(env, HtlcOps(c), 1, State(s[..|s| - 1], [Truthy(s[|s| - 1])]))
  {
    Steps(env, HtlcOps(c), 0, State(s, []));
    assert State(s, []).conds + [Truthy(s[|s| - 1])] == [Truthy(s[|s| - 1])];
  }

  /** What is left after a signature check succeeds exactly when the signature was the only item. */
  lemma OnlyVerdictLeft(s: seq<Bytes>, valid: bool)
    requires s != []
    ensures Succeeded(Some(State(s[..|s| - 1] + [Verdict(valid)], []))) <==> |s| == 1 && valid
  {
    VerdictIsTruth(valid);
  }

  lemma ClaimBranch(env: Env, c: Terms, s: seq<Bytes>)
    requires ValidateLockHeight(c.refundLockHeight).Ok? && s != [] && Truthy(s[|s| - 1])
    ensures Succeeded(Run(env, HtlcOps(c), 0, State(s, []))) <==> ClaimStack(env, c, s)
  {
    hide SignatureValid, Truthy, HtlcOps, Succeeded;
    var rest := s[..|s| - 1];
    SelectorPops(env, c, s);
    if rest == [] {
      SizeNeedsItem(env, c);
    } else {
      SizeChecks(env, c, rest);
      HashChecks(env, c, rest);
      var sigs := rest[..|rest| - 1];
      ClaimSignatureChecks(env, c, sigs);
      NothingFails();
      if sigs != [] {
        OnlyVerdictLeft(sigs, SignatureValid(env, sigs[|sigs| - 1], c.claimKey));
      }
    }
  }

  lemma NothingFails()
    ensures !Succeeded(None)
  {
  }

  lemma SizeNeedsItem(env: Env, c: Terms)
    requires ValidateLockHeight(c.refundLockHeight).Ok?
    ensures !Succeeded(Run(env, HtlcOps(c), 1, State([], [true])))
  {
    hide Run, HtlcOps;
    SizeComesSecond(c);
    Steps(env, HtlcOps(c), 1, State([], [true]));
    SizeOfNothing(env);
  }

  lemma SizeComesSecond(c: Terms)
    requires ValidateLockHeight(c.refundLockHeight).Ok?
    ensures |HtlcOps(c)| == 16 && HtlcOps(c)[1] == Size
  {
  }

  lemma SizeOfNothing(env: Env)
    ensures Step(env, Size, State([], [true])).None?
  {
  }

  lemma RefundBranch(env: Env, c: Terms, s: seq<Bytes>)
    requires Sized(c) && ValidateLockHeight(c.refundLockHeight).Ok? && s != [] && !Truthy(s[|s| - 1])
    ensures Succeeded(Run(env, HtlcOps(c), 0, State(s, []))) <==> RefundStack(env, c, s)
  {
    hide SignatureValid, Truthy, HtlcOps, Succeeded, RefundMature;
    var rest := s[..|s| - 1];
    SelectorPops(env, c, s);
    RefundLockChecks(env, c, rest);
    RefundSignatureChecks(env, c, rest);
    NothingFails();
    if rest != [] {
      OnlyVerdictLeft(rest, SignatureValid(env, rest[|rest| - 1], c.refundKey));
    }
  }

  /** The script succeeds on exactly two kinds of stack: a signature of the claim key under a
      32-byte preimage of the hash lock and a true selector, or, from the refund height on, a
      signature of the refund key under a false one. */
  lemma ScriptAcceptsExactly(env: Env, c: Terms, s: seq<Bytes>)
    requires Sized(c) && ValidateLockHeight(c.refundLockHeight).Ok?
    ensures Succeeded(Run(env, HtlcOps(c), 0, State(s, []))) <==> ClaimStack(env, c, s) || RefundStack(env, c, s)
  {
    if s == [] {
      Steps(env, HtlcOps(c), 0, State(s, []));
    } else if Truthy(s[|s| - 1]) {
      ClaimBranch(env, c, s);
    } else {
      RefundBranch(env, c, s);
    }
  }

  // Saved contracts.

  datatype Chain = BitcoinRegtest | LiquidRegtest

  datatype Contract = Contract(
    chain: Chain, assetId: AssetId, terms: Terms, scriptBytes: Bytes, outputScript: Bytes)

  /** The version-0 output script of a script's hash. */
  function ToP2wsh(crypto: Crypto, script: Bytes): Bytes
    requires Lawful(crypto)
  {
    [0, 32] + crypto.sha256(script)
  }

  function CreateHtlcContract(crypto: Crypto, chain: Chain, assetId: AssetId, terms: Terms)
    : Result<Contract, ChainError>
    requires Lawful(crypto) && Sized(terms)
  {
    if chain.BitcoinRegtest? != assetId.Native? then Err(InvalidInput)
    else
      var script :- BuildWitnessScript(terms);
      Ok(Contract(chain, assetId, terms, script, ToP2wsh(crypto, script)))
  }

  /** A saved contract must be what its terms rebuild to. */
  function ValidateHtlcContract(crypto: Crypto, c: Contract): Result<(), ChainError>
    requires Lawful(crypto) && Sized(c.terms)
  {
    var rebuilt :- CreateHtlcContract(crypto, c.chain, c.assetId, c.terms);
    if rebuilt == c then Ok(()) else Err(Validation)
  }

  function ValidateContractFor(crypto: Crypto, c: Contract, chain: Chain): Result<(), ChainError>
    requires Lawful(crypto) && Sized(c.terms)
  {
    var _ :- ValidateHtlcContract(crypto, c);
    if c.chain != chain then Err(InvalidInput) else Ok(())
  }

  lemma ValidContractFacts(crypto: Crypto, c: Contract, chain: Chain)
    requires Lawful(crypto) && Sized(c.terms) && ValidateContractFor(crypto, c, chain).Ok?
    ensures ValidateLockHeight(c.terms.refundLockHeight).Ok?
    ensures forall op :: op in HtlcOps(c.terms) ==> ValidOp(op)
    ensures c.scriptBytes == EncodeAll(HtlcOps(c.terms)) && c.outputScript == ToP2wsh(crypto, c.scriptBytes)
    ensures c.chain == chain && (chain.BitcoinRegtest? <==> c.assetId.Native?)
    ensures DecodeAll(c.scriptBytes) == Some(HtlcOps(c.terms))
  {
    OpsAreValid(c.terms);
    ScriptDecodes(HtlcOps(c.terms));
  }

  /** Exactly what a valid contract is: every field rebuilt from its terms. */
  lemma ContractIsValidIff(crypto: Crypto, c: Contract, chain: Chain)
    requires Lawful(crypto) && Sized(c.terms)
    ensures ValidateContractFor(crypto, c, chain).Ok? <==>
      && c.chain == chain && (chain == BitcoinRegtest <==> c.assetId == Native)
      && 1 <= c.terms.refundLockHeight < 500_000_000
      && BuildWitnessScript(c.terms) == Ok(c.scriptBytes)
      && c.outputScript == [0, 32] + crypto.sha256(c.scriptBytes)
  {
    hide BuildWitnessScript;
  }

  function SpendEnv(crypto: Crypto, c: Contract, tx: Tx, index: nat, amount: U64): Env {
    Env(crypto, tx, index, c.scriptBytes, amount)
  }

  /** The output accepts no witness but one that ends in a script of the committed hash, the one its
      signatures are checked for. */
  lemma AcceptsOnlyCommitted(crypto: Crypto, c: Contract, chain: Chain, env: Env, items: seq<Bytes>)
    requires Lawful(crypto) && Sized(c.terms) && ValidateContractFor(crypto, c, chain).Ok?
    requires env.crypto == crypto && Accepts(env, c.outputScript, items)
    ensures items != [] && env.script == items[|items| - 1]
    ensures crypto.sha256(items[|items| - 1]) == crypto.sha256(c.scriptBytes)
  {
    ValidContractFacts(crypto, c, chain);
    assert c.outputScript[2..] == crypto.sha256(c.scriptBytes);
  }

  /** A witness that carries the contract's own script is accepted by its output exactly on a
      claim or a mature refund, its items within the size limit. */
  lemma ContractAcceptsExactly(crypto: Crypto, c: Contract, chain: Chain, tx: Tx, index: nat, amount: U64,
                               items: seq<Bytes>)
    requires Lawful(crypto) && Sized(c.terms) && ValidateContractFor(crypto, c, chain).Ok?
    requires items != [] && items[|items| - 1] == c.scriptBytes
    ensures var env, stack := SpendEnv(crypto, c, tx, index, amount), items[..|items| - 1];
      Accepts(env, c.outputScript, items)
      <==> (forall i :: 0 <= i < |items| - 1 ==> |items[i]| <= 520)
           && (ClaimStack(env, c.terms, stack) || RefundStack(env, c.terms, stack))
  {
    ValidContractFacts(crypto, c, chain);
    ScriptAcceptsExactly(SpendEnv(crypto, c, tx, index, amount), c.terms, items[..|items| - 1]);
  }

  // Building spends.

  datatype SpendKind = ClaimSpend | RefundSpend

  function SpendLockTime(kind: SpendKind, height: U64): Result<U32, ChainError> {
    match kind
    case ClaimSpend => Ok(0)
    case RefundSpend => if height < 0x1_0000_0000 then Ok(height) else Err(InvalidInput)
  }

  function SpendSequence(kind: SpendKind): U32 {
    match kind
    case ClaimSpend => 0xffff_fffd
    case RefundSpend => 0xffff_fffe
  }

  /** A refund built with these two values is mature, whatever else it contains. */
  lemma BuiltRefundIsMature(env: Env, terms: Terms)
    requires ValidateLockHeight(terms.refundLockHeight).Ok? && env.index < |env.tx.inputs|
    requires SpendLockTime(RefundSpend, terms.refundLockHeight) == Ok(env.tx.lockTime)
    requires env.tx.inputs[env.index].sequence == SpendSequence(RefundSpend)
    ensures RefundMature(env, terms)
  {
  }

  // Signing.

  const SIGHASH_ALL: Byte := 1

  function EncodedSignature(signature: Bytes): Bytes {
    signature + [SIGHASH_ALL]
  }

  function BranchWitness(script: Bytes, signature: Bytes, preimage: Option<Bytes>): seq<Bytes> {
    match preimage
    case Some(p) => [EncodedSignature(signature), p, [1], script]
    case None => [EncodedSignature(signature), [], script]
  }

  function WithItems(tx: Tx, index: nat, items: seq<Bytes>): Tx
    requires index < |tx.inputs|
  {
    tx.(inputs := tx.inputs[index := tx.inputs[index].(items := items)])
  }

  lemma StrippedKeeps(tx: Tx, index: nat, items: seq<Bytes>)
    requires index < |tx.inputs|
    ensures Stripped(WithItems(tx, index, items)) == Stripped(tx)
  {
  }

  function BranchKey(c: Contract, preimage: Option<Bytes>): Bytes {
    if preimage.Some? then c.terms.claimKey else c.terms.refundKey
  }

  predicate PreimageFits(crypto: Crypto, c: Contract, preimage: Option<Bytes>) {
    preimage.Some? ==> |preimage.value| == 32 && crypto.sha256(preimage.value) == c.terms.hashLock
  }

  lemma SignedClaimStack(env: Env, c: Terms, signature: Bytes, preimage: Bytes)
    requires |preimage| == 32 && env.crypto.sha256(preimage) == c.hashLock && SignatureValid(env, signature, c.claimKey)
    ensures ClaimStack(env, c, [signature, preimage, [1]])
  {
    hide SignatureValid;
    assert [1][0] == 1 && Truthy([1]);
  }

  lemma SignedRefundStack(env: Env, c: Terms, signature: Bytes)
    requires RefundMature(env, c) && SignatureValid(env, signature, c.refundKey)
    ensures RefundStack(env, c, [signature, []])
  {
    hide SignatureValid, RefundMature;
  }

  /** A signature of the branch key completes an accepted witness, if the refund is mature. */
  lemma SignedBranchIsAccepted(crypto: Crypto, c: Contract, chain: Chain, tx: Tx, index: nat, amount: U64,
                               secret: Bytes, preimage: Option<Bytes>, signed: Tx)
    requires Lawful(crypto) && Sized(c.terms) && ValidateContractFor(crypto, c, chain).Ok?
    requires index < |tx.inputs| && PreimageFits(crypto, c, preimage)
    requires crypto.publicKey(secret) == BranchKey(c, preimage)
    requires index < |signed.inputs| && Stripped(signed) == Stripped(tx)
    requires signed.inputs[index].items == BranchWitness(
      c.scriptBytes,
      crypto.sign(secret, crypto.sighash(Stripped(tx), index, c.scriptBytes, amount, SIGHASH_ALL)),
      preimage)
    requires preimage.None? ==> RefundMature(SpendEnv(crypto, c, signed, index, amount), c.terms)
    ensures Accepts(SpendEnv(crypto, c, signed, index, amount), c.outputScript, signed.inputs[index].items)
  {
    hide ClaimStack, RefundStack, Accepts, SignatureValid, RefundMature, ValidateContractFor;
    var env, items := SpendEnv(crypto, c, signed, index, amount), signed.inputs[index].items;
    var digest := crypto.sighash(Stripped(tx), index, c.scriptBytes, amount, SIGHASH_ALL);
    var signature := EncodedSignature(crypto.sign(secret, digest));
    ContractAcceptsExactly(crypto, c, chain, signed, index, amount, items);
    SignatureIsValid(env, secret, digest);
    if preimage.Some? {
      assert items[..|items| - 1] == [signature, preimage.value, [1]];
      SignedClaimStack(env, c.terms, signature, preimage.value);
    } else {
      assert items[..|items| - 1] == [signature, []];
      SignedRefundStack(env, c.terms, signature);
    }
  }

  lemma SignatureIsValid(env: Env, secret: Bytes, digest: Bytes)
    requires Lawful(env.crypto)
    requires digest == env.crypto.sighash(Stripped(env.tx), env.index, env.script, env.amount, SIGHASH_ALL)
    ensures SignatureValid(env, EncodedSignature(env.crypto.sign(secret, digest)), env.crypto.publicKey(secret))
  {
    var signature := env.crypto.sign(secret, digest);
    assert EncodedSignature(signature)[..|EncodedSignature(signature)| - 1] == signature;
  }

  predicate FullySigned(tx: Tx) {
    forall i :: 0 <= i < |tx.inputs| ==> tx.inputs[i].items != []
  }

  /** `signed` is `tx` with the witness of the branch the preimage selects in its first input. */
  predicate SignsBranch(crypto: Crypto, tx: Tx, c: Contract, secret: Bytes, amount: U64,
                        preimage: Option<Bytes>, signed: Tx)
  {
    && signed.inputs != [] && Stripped(signed) == Stripped(tx)
    && signed.inputs[0].items == BranchWitness(
         c.scriptBytes,
         crypto.sign(secret, crypto.sighash(Stripped(tx), 0, c.scriptBytes, amount, SIGHASH_ALL)),
         preimage)
  }

  /** Signing succeeds exactly for the key of the branch the preimage selects, on a valid
      contract; what it returns differs only in the first witness, and the contract's output
      accepts it, a refund from its height on. */
  method SignBitcoinHtlcSpend(crypto: Crypto, transaction: Tx, c: Contract, secret: Bytes, amount: U64,
                              preimage: Option<Bytes>) returns (res: Result<Tx, ChainError>)
    requires Lawful(crypto) && Sized(c.terms) && (preimage.Some? ==> |preimage.value| == 32)
    ensures res.Ok? <==>
      && ValidateContractFor(crypto, c, BitcoinRegtest).Ok? && PreimageFits(crypto, c, preimage)
      && crypto.publicKey(secret) == BranchKey(c, preimage)
      && transaction.inputs != []
      && (forall i :: 1 <= i < |transaction.inputs| ==> transaction.inputs[i].items != [])
    ensures res.Ok? ==>
      && |res.value.inputs| == |transaction.inputs| > 0
      && Stripped(res.value) == Stripped(transaction)
      && res.value.inputs[1..] == transaction.inputs[1..]
      && SignsBranch(crypto, transaction, c, secret, amount, preimage, res.value)
      && ((preimage.None? ==> RefundMature(SpendEnv(crypto, c, res.value, 0, amount), c.terms))
          ==> Accepts(SpendEnv(crypto, c, res.value, 0, amount), c.outputScript, res.value.inputs[0].items))
  {
    var tx := transaction;
    var _ :- ValidateContractFor(crypto, c, BitcoinRegtest);
    ValidContractFacts(crypto, c, BitcoinRegtest);
    var script := BuildWitnessScript(c.terms).value;
    if preimage.Some? && crypto.sha256(preimage.value) != c.terms.hashLock {
      return Err(Validation);
    }
    if crypto.publicKey(secret) != BranchKey(c, preimage) {
      return Err(SignatureError);
    }
    if tx.inputs == [] {
      return Err(SignatureError);
    }
    var digest := crypto.sighash(Stripped(tx), 0, script, amount, SIGHASH_ALL);
    var items := BranchWitness(script, crypto.sign(secret, digest), preimage);
    tx := WithItems(tx, 0, items);
    StrippedKeeps(transaction, 0, items);
    assert forall i :: 1 <= i < |transaction.inputs| ==> transaction.inputs[i] == tx.inputs[i];
    if !FullySigned(tx) {
      return Err(Validation);
    }
    if preimage.None? ==> RefundMature(SpendEnv(crypto, c, tx, 0, amount), c.terms) {
      SignedBranchIsAccepted(crypto, c, BitcoinRegtest, transaction, 0, amount, secret, preimage, tx);
    }
    return Ok(tx);
  }

  // What a claim reveals.

  /** `extract_claim_preimage`, the same on both chains. */
  function ExtractClaimPreimage(crypto: Crypto, tx: Tx, c: Contract, chain: Chain, index: nat)
    : Result<Bytes, ChainError>
    requires Lawful(crypto) && Sized(c.terms)
  {
    var _ :- ValidateContractFor(crypto, c, chain);
    if index >= |tx.inputs| then Err(Validation)
    else
      var items := tx.inputs[index].items;
      var script :- BuildWitnessScript(c.terms);
      if |items| != 4 || items[2] != [1] || items[3] != script then Err(Validation)
      else if |items[1]| != 32 then Err(Validation)
      else if crypto.sha256(items[1]) != c.terms.hashLock then Err(Validation)
      else Ok(items[1])
  }

  /** An accepted spend through the contract's script reveals a preimage of the hash lock to the
      extractor exactly when it is a claim with the one-byte selector 1. Any other true selector
      spends the output too, and leaves the extractor without the preimage. */
  lemma AcceptedClaimReveals(crypto: Crypto, c: Contract, chain: Chain, tx: Tx, index: nat, amount: U64)
    requires Lawful(crypto) && Sized(c.terms) && ValidateContractFor(crypto, c, chain).Ok? && index < |tx.inputs|
    requires var items := tx.inputs[index].items;
      && items != [] && items[|items| - 1] == c.scriptBytes
      && Accepts(SpendEnv(crypto, c, tx, index, amount), c.outputScript, items)
    ensures var items, extracted := tx.inputs[index].items, ExtractClaimPreimage(crypto, tx, c, chain, index);
      && (extracted.Ok? <==> |items| == 4 && items[2] == [1])
      && (extracted.Ok? ==> extracted.value == items[1] && crypto.sha256(items[1]) == c.terms.hashLock)
  {
    var items := tx.inputs[index].items;
    ValidContractFacts(crypto, c, chain);
    ContractAcceptsExactly(crypto, c, chain, tx, index, amount, items);
    if |items| == 4 {
      assert items[..3][1] == items[1];
    }
  }

  /** From building to extraction, on either chain: a transaction built for `kind` and signed
      under the key of the branch the preimage selects is accepted by the contract exactly when it
      claims or was built as a refund, and the extractor gets back the very preimage a claim was
      signed with, and nothing from a refund. */
  lemma SignedSpendRoundTrip(crypto: Crypto, c: Contract, chain: Chain, kind: SpendKind, tx: Tx, secret: Bytes,
                             amount: U64, preimage: Option<Bytes>, signed: Tx)
    requires Lawful(crypto) && Sized(c.terms) && ValidateContractFor(crypto, c, chain).Ok?
    requires tx.inputs != [] && tx.inputs[0].sequence == SpendSequence(kind)
    requires SpendLockTime(kind, c.terms.refundLockHeight) == Ok(tx.lockTime)
    requires PreimageFits(crypto, c, preimage) && crypto.publicKey(secret) == BranchKey(c, preimage)
    requires SignsBranch(crypto, tx, c, secret, amount, preimage, signed)
    ensures Accepts(SpendEnv(crypto, c, signed, 0, amount), c.outputScript, signed.inputs[0].items)
       <==> preimage.Some? || kind.RefundSpend?
    ensures ExtractClaimPreimage(crypto, signed, c, chain, 0)
         == if preimage.Some? then Ok(preimage.value) else Err(Validation)
  {
    var env, items := SpendEnv(crypto, c, signed, 0, amount), signed.inputs[0].items;
    ValidContractFacts(crypto, c, chain);
    assert Stripped(signed).inputs[0].sequence == Stripped(tx).inputs[0].sequence;
    if preimage.Some? || kind.RefundSpend? {
      if preimage.None? {
        BuiltRefundIsMature(env, c.terms);
      }
      SignedBranchIsAccepted(crypto, c, chain, tx, 0, amount, secret, preimage, signed);
    } else {
      ContractAcceptsExactly(crypto, c, chain, signed, 0, amount, items);
      assert !RefundMature(env, c.terms);
    }
  }
}
