/** The part of Bitcoin Script the HTLC uses: its byte encoding, its numbers and an interpreter
    for version-0 witness scripts. Lock-time checks follow BIP 65, "Summary"; the witness rules
    follow BIP 141, "Witness program": items of at most 520 bytes and exactly one true element
    left. Hashing and signature checking are parameters. */
module Script {
  import opened Wrappers

  type Byte = n: nat | n < 256

  type Bytes = seq<Byte>

  type U32 = n: nat | n < 0x1_0000_0000

  datatype TxIn = TxIn(txid: string, vout: U32, sequence: U32, items: seq<Bytes>)

  datatype AssetId = Native | Explicit(id: Bytes)

  datatype TxOut = TxOut(asset: AssetId, value: U64, script: Bytes)

  datatype Tx = Tx(version: nat, lockTime: U32, inputs: seq<TxIn>, outputs: seq<TxOut>)

  /** A transaction as its signatures see it. */
  function Stripped(tx: Tx): Tx {
    tx.(inputs := seq(|tx.inputs|, i requires 0 <= i < |tx.inputs| => tx.inputs[i].(items := [])))
  }

  datatype Crypto = Crypto(
    sha256: Bytes -> Bytes,
    sighash: (Tx, nat, Bytes, U64, Byte) -> Bytes,
    verify: (Bytes, Bytes, Bytes) -> bool,
    publicKey: Bytes -> Bytes,
    walletScript: Bytes -> Bytes,
    sign: (Bytes, Bytes) -> Bytes)

  // `walletScript` is the P2WPKH output script of a key.

  /** What the primitives are relied on for: sizes, and that a signature verifies under its key. */
  ghost predicate Lawful(crypto: Crypto) {
    && (forall x :: |crypto.sha256(x)| == 32)
    && (forall secret :: |crypto.publicKey(secret)| == 33)
    && (forall secret, digest :: |crypto.sign(secret, digest)| <= 72)
    && (forall secret, digest :: crypto.verify(crypto.publicKey(secret), digest, crypto.sign(secret, digest)))
  }

  // Numbers.

  function LittleEndian(n: nat): Bytes {
    if n == 0 then [] else [n % 256] + LittleEndian(n / 256)
  }

  function FromLittleEndian(b: Bytes): nat {
    if b == [] then 0 else b[0] + 256 * FromLittleEndian(b[1..])
  }

  /** The minimal encoding of a non-negative number, its top bit kept for the sign. */
  function ScriptNum(n: nat): Bytes {
    var b := LittleEndian(n);
    if b != [] && b[|b| - 1] >= 128 then b + [0] else b
  }

  function Pow256(n: nat): nat {
    if n == 0 then 1 else 256 * Pow256(n - 1)
  }

  /** The number a stack element stands for; the top bit is its sign. */
  function DecodeNum(b: Bytes): int {
    if b == [] then 0
    else if b[|b| - 1] >= 128 then 0 - (FromLittleEndian(b) - 128 * Pow256(|b| - 1))
    else FromLittleEndian(b)
  }

  lemma {:induction false} LittleEndianDecodes(n: nat)
    ensures FromLittleEndian(LittleEndian(n)) == n
    ensures FromLittleEndian(LittleEndian(n) + [0]) == n
  {
    if n == 0 {
      assert FromLittleEndian([0]) == 0 + 256 * FromLittleEndian([0][1..]);
      assert LittleEndian(n) + [0] == [0];
    } else {
      LittleEndianDecodes(n / 256);
      var b := LittleEndian(n);
      assert b[1..] == LittleEndian(n / 256);
      assert (b + [0])[1..] == LittleEndian(n / 256) + [0];
    }
  }

  lemma {:induction false} LittleEndianIsShort(n: nat, k: nat)
    requires n < Pow256(k)
    ensures |LittleEndian(n)| <= k
  {
    if n > 0 {
      LittleEndianIsShort(n / 256, k - 1);
    }
  }

  lemma NumDecodes(n: nat)
    ensures DecodeNum(ScriptNum(n)) == n
  {
    LittleEndianDecodes(n);
  }

  // Operations and their bytes.

  datatype Op =
    | If | Else | EndIf | Size | EqualVerify | Sha256 | CheckSig | Cltv | Drop
    | Small(n: Byte) | Push(data: Bytes)

  predicate ValidOp(op: Op) {
    match op
    case Small(n) => 1 <= n <= 16
    case Push(data) => 1 <= |data| <= 75
    case _ => true
  }

  function Encode(op: Op): Bytes
    requires ValidOp(op)
  {
    match op
    case If => [0x63]
    case Else => [0x67]
    case EndIf => [0x68]
    case Drop => [0x75]
    case Size => [0x82]
    case EqualVerify => [0x88]
    case Sha256 => [0xa8]
    case CheckSig => [0xac]
    case Cltv => [0xb1]
    case Small(n) => [0x50 + n]
    case Push(data) => [|data|] + data
  }

  function EncodeAll(ops: seq<Op>): Bytes
    requires forall op :: op in ops ==> ValidOp(op)
  {
    if ops == [] then [] else Encode(ops[0]) + EncodeAll(ops[1..])
  }

  /** The first operation of a script and how many bytes it takes. */
  function DecodeOp(b: Bytes): Option<(Op, nat)>
    requires b != []
  {
    var c := b[0];
    if 1 <= c <= 75 then
      if |b| > c then Some((Push(b[1..1 + c]), 1 + c)) else None
    else if 0x51 <= c <= 0x60 then Some((Small(c - 0x50), 1))
    else if c == 0x63 then Some((If, 1))
    else if c == 0x67 then Some((Else, 1))
    else if c == 0x68 then Some((EndIf, 1))
    else if c == 0x75 then Some((Drop, 1))
    else if c == 0x82 then Some((Size, 1))
    else if c == 0x88 then Some((EqualVerify, 1))
    else if c == 0xa8 then Some((Sha256, 1))
    else if c == 0xac then Some((CheckSig, 1))
    else if c == 0xb1 then Some((Cltv, 1))
    else None
  }

  function DecodeAll(b: Bytes): Option<seq<Op>>
    decreases |b|
  {
    if b == [] then Some([])
    else
      var first :- DecodeOp(b);
      if first.1 == 0 || first.1 > |b| then None
      else
        var rest :- DecodeAll(b[first.1..]);
        Some([first.0] + rest)
  }

  lemma OpDecodes(op: Op, rest: Bytes)
    requires ValidOp(op)
    ensures DecodeOp(Encode(op) + rest) == Some((op, |Encode(op)|))
  {
    if op.Push? {
      assert (Encode(op) + rest)[1..1 + |op.data|] == op.data;
    }
  }

  /** Decoding inverts encoding: the interpreter sees the operations the builder pushed. */
  lemma {:induction false} ScriptDecodes(ops: seq<Op>)
    requires forall op :: op in ops ==> ValidOp(op)
    ensures DecodeAll(EncodeAll(ops)) == Some(ops)
  {
    if ops != [] {
      var b, tail := EncodeAll(ops), EncodeAll(ops[1..]);
      OpDecodes(ops[0], tail);
      ScriptDecodes(ops[1..]);
      assert b[|Encode(ops[0])|..] == tail;
      assert [ops[0]] + ops[1..] == ops;
    }
  }

  // Execution.

  datatype Env = Env(crypto: Crypto, tx: Tx, index: nat, script: Bytes, amount: U64)

  datatype State = State(stack: seq<Bytes>, conds: seq<bool>)

  /** Any byte but a lone sign bit makes an element true. */
  predicate Truthy(b: Bytes) {
    exists i :: 0 <= i < |b| && b[i] != 0 && !(i == |b| - 1 && b[i] == 0x80)
  }

  lemma {:induction false} LastByteWeighs(b: Bytes)
    requires b != []
    ensures FromLittleEndian(b) == FromLittleEndian(b[..|b| - 1]) + b[|b| - 1] * Pow256(|b| - 1)
  {
    if |b| > 1 {
      LastByteWeighs(b[1..]);
      assert b[1..][..|b| - 2] == b[..|b| - 1][1..];
    } else {
      assert b[..0] == [] && b[1..] == [];
    }
  }

  lemma {:induction false} ZeroIsAllZeros(b: Bytes)
    ensures FromLittleEndian(b) == 0 <==> forall i :: 0 <= i < |b| ==> b[i] == 0
  {
    if b != [] {
      ZeroIsAllZeros(b[1..]);
      assert forall i :: 0 <= i < |b| - 1 ==> b[1..][i] == b[i + 1];
      if forall i :: 0 <= i < |b| - 1 ==> b[1..][i] == 0 {
        forall i | 1 <= i < |b| ensures b[i] == 0 {
          assert b[i] == b[1..][i - 1];
        }
      }
    }
  }

  lemma {:induction false} Pow256Positive(n: nat)
    ensures Pow256(n) > 0
  {
    if n > 0 {
      Pow256Positive(n - 1);
    }
  }

  /** What the top byte adds to a number whose other bytes are worth `rest`, its top bit the sign. */
  lemma SignSplits(rest: nat, last: Byte, power: nat)
    requires power > 0
    ensures rest + last * power == 0 <==> rest == 0 && last == 0
    ensures last >= 128 ==> (rest + last * power - 128 * power == 0 <==> rest == 0 && last == 128)
  {
    assert last > 0 ==> last * power >= power;
    if last >= 128 {
      assert last * power - 128 * power == (last - 128) * power;
      assert last > 128 ==> (last - 128) * power >= power;
    }
  }

  lemma TruthSplits(b: Bytes)
    requires b != []
    ensures var front, last := b[..|b| - 1], b[|b| - 1];
      Truthy(b) <==> (exists i :: 0 <= i < |front| && front[i] != 0) || (last != 0 && last != 0x80)
  {
    var front := b[..|b| - 1];
    if i :| 0 <= i < |front| && front[i] != 0 {
      assert b[i] != 0;
    }
    if Truthy(b) {
      var i :| 0 <= i < |b| && b[i] != 0 && !(i == |b| - 1 && b[i] == 0x80);
      assert i < |b| - 1 ==> front[i] == b[i];
    }
  }

  /** An element is true exactly when the number it stands for is not zero; a lone sign is zero. */
  lemma TrueIsNonZero(b: Bytes)
    ensures Truthy(b) <==> DecodeNum(b) != 0
  {
    hide Pow256, FromLittleEndian, Truthy;
    if b == [] {
      NothingIsFalse();
    } else {
      var front := b[..|b| - 1];
      LastByteWeighs(b);
      ZeroIsAllZeros(front);
      Pow256Positive(|b| - 1);
      SignSplits(FromLittleEndian(front), b[|b| - 1], Pow256(|b| - 1));
      TruthSplits(b);
    }
  }

  lemma NothingIsFalse()
    ensures !Truthy([])
  {
  }

  const LOCKTIME_THRESHOLD: nat := 500_000_000

  const FINAL_SEQUENCE: U32 := 0xffff_ffff

  predicate LockTimeReached(env: Env, top: Bytes) {
    && |top| <= 5
    && env.index < |env.tx.inputs|
    && var lock := DecodeNum(top);
       && lock >= 0
       && (lock < LOCKTIME_THRESHOLD <==> env.tx.lockTime < LOCKTIME_THRESHOLD)
       && lock <= env.tx.lockTime
       && env.tx.inputs[env.index].sequence != FINAL_SEQUENCE
  }

  /** The last byte of a signature element is its hash type, the rest is checked against the
      digest of the stripped transaction under that type. */
  predicate SignatureValid(env: Env, sig: Bytes, key: Bytes) {
    && sig != []
    && env.crypto.verify(
         key,
         env.crypto.sighash(Stripped(env.tx), env.index, env.script, env.amount, sig[|sig| - 1]),
         sig[..|sig| - 1])
  }

  function Top(st: State): Bytes
    requires st.stack != []
  {
    st.stack[|st.stack| - 1]
  }

  function Popped(st: State, n: nat): seq<Bytes>
    requires n <= |st.stack|
  {
    st.stack[..|st.stack| - n]
  }

  function Pushed(st: State, item: Bytes): State {
    st.(stack := st.stack + [item])
  }

  /** Branch opcodes run in skipped branches too. */
  function Branch(op: Op, st: State): Option<State>
    requires op.If? || op.Else? || op.EndIf?
  {
    match op
    case If =>
      if false in st.conds then Some(st.(conds := st.conds + [false]))
      else if st.stack == [] then None
      else Some(State(Popped(st, 1), st.conds + [Truthy(Top(st))]))
    case Else =>
      if st.conds == [] then None
      else Some(st.(conds := st.conds[..|st.conds| - 1] + [!st.conds[|st.conds| - 1]]))
    case EndIf =>
      if st.conds == [] then None else Some(st.(conds := st.conds[..|st.conds| - 1]))
  }

  function Execute(env: Env, op: Op, st: State): Option<State>
    requires !(op.If? || op.Else? || op.EndIf?)
  {
    match op
    case Small(n) => Some(Pushed(st, [n]))
    case Push(data) => Some(Pushed(st, data))
    case Size => if st.stack == [] then None else Some(Pushed(st, ScriptNum(|Top(st)|)))
    case Drop => if st.stack == [] then None else Some(st.(stack := Popped(st, 1)))
    case Sha256 =>
      if st.stack == [] then None else Some(State(Popped(st, 1) + [env.crypto.sha256(Top(st))], st.conds))
    case Cltv =>
      if st.stack == [] || !LockTimeReached(env, Top(st)) then None else Some(st)
    case EqualVerify =>
      if |st.stack| < 2 || Top(st) != st.stack[|st.stack| - 2] then None
      else Some(st.(stack := Popped(st, 2)))
    case CheckSig =>
      if |st.stack| < 2 then None
      else
        var valid := SignatureValid(env, st.stack[|st.stack| - 2], Top(st));
        Some(State(Popped(st, 2) + [if valid then [1] else []], st.conds))
  }

  function Step(env: Env, op: Op, st: State): Option<State> {
    if op.If? || op.Else? || op.EndIf? then Branch(op, st)
    else if false in st.conds then Some(st)
    else Execute(env, op, st)
  }

  function Run(env: Env, ops: seq<Op>, pc: nat, st: State): Option<State>
    requires pc <= |ops|
    decreases |ops| - pc
  {
    if pc == |ops| then Some(st)
    else
      var next :- Step(env, ops[pc], st);
      Run(env, ops, pc + 1, next)
  }

  /** One true element is left, and every branch is closed. */
  predicate Succeeded(end: Option<State>) {
    end.Some? && end.value.conds == [] && |end.value.stack| == 1 && Truthy(end.value.stack[0])
  }

  const MAX_ITEM: nat := 520

  /** An output script of version 0 and a 32-byte program accepts a witness whose last item is a
      script of that hash that succeeds on the items before it. */
  predicate Accepts(env: Env, output: Bytes, items: seq<Bytes>) {
    && |output| == 34 && output[0] == 0 && output[1] == 32
    && items != []
    && env.script == items[|items| - 1]
    && env.crypto.sha256(env.script) == output[2..]
    && (forall i :: 0 <= i < |items| - 1 ==> |items[i]| <= MAX_ITEM)
    && var ops := DecodeAll(env.script);
       ops.Some? && Succeeded(Run(env, ops.value, 0, State(items[..|items| - 1], [])))
  }
}
