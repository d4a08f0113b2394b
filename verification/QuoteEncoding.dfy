/** The bytes a quote's signature covers, and the terms a quote must meet (src/core/rfq.rs,
    src/core/endpoint.rs). Texts are byte strings, one character a UTF-8 byte. */
module QuoteEncoding {
  import opened Wrappers
  import opened Numerals
  import opened Texts

  type Text = s: string | |s| < 0x8000_0000_0000_0000

  type U16 = n: nat | n < 0x1_0000

  datatype Network = LiquidRegtest | BitcoinRegtest | LightningRegtest | ArkRegtest

  function NetworkText(n: Network): string {
    match n
    case LiquidRegtest => "liquid-regtest"
    case BitcoinRegtest => "bitcoin-regtest"
    case LightningRegtest => "lightning-regtest"
    case ArkRegtest => "ark-regtest"
  }

  datatype EndpointId = EndpointId(assetId: Text, network: Network, assetHash: Option<Text>)

  datatype DeadlineContext = DeadlineContext(
    sourceHeight: U64, destinationHeight: U64, sourceRefundHeight: U64, destinationRefundHeight: U64,
    lightningExpiryHeight: Option<U64>, sourceRefundAt: U64, destinationRefundAt: U64,
    lightningExpiryAt: Option<U64>, marginSeconds: U64)

  /** Amounts are canonical decimals, kept as numbers; the hash commitment as its hex text. */
  datatype Intent = Intent(
    version: U16, intentId: Text, source: EndpointId, destination: EndpointId, amountIn: U64, minAmountOut: U64,
    feeLimit: U64, hashCommitment: Text, claimKey: Text, refundKey: Text, sourceDestination: Text,
    destinationDestination: Text, refundDestination: Text, context: DeadlineContext, expiresAt: U64, nonce: Text)

  datatype Quote = Quote(
    version: U16, quoteId: Text, intentId: Text, source: EndpointId, destination: EndpointId, amountIn: U64,
    minAmountOut: U64, amountOut: U64, fee: U64, feeLimit: U64, hashCommitment: Text, claimKey: Text,
    refundKey: Text, sourceDestination: Text, destinationDestination: Text, refundDestination: Text,
    sourceRefundHeight: U64, destinationRefundHeight: U64, lightningExpiryHeight: Option<U64>,
    context: DeadlineContext, expiresAt: U64, nonce: Text, solverKeyId: Text, adapterId: Text,
    paymentRequest: Option<Text>)

  datatype QuoteError = InvalidEndpoint | QuoteRejected | UnsupportedRoute | DeadlineRejected

  // Endpoints.

  predicate IsAssetChar(c: char) {
    'A' <= c <= 'Z' || IsDigit(c) || c == '-'
  }

  predicate IsAssetHash(s: string) {
    |s| == 64 && forall i :: 0 <= i < |s| ==> IsDigit(s[i]) || 'a' <= s[i] <= 'f'
  }

  predicate IsAssetId(s: string) {
    s != "" && forall i :: 0 <= i < |s| ==> IsAssetChar(s[i])
  }

  function ValidateEndpoint(e: EndpointId): Result<(), QuoteError> {
    if !IsAssetId(e.assetId) then Err(InvalidEndpoint)
    else if e.assetId == "TEST-DEPIX" && !e.network.LiquidRegtest? then Err(InvalidEndpoint)
    else if e.assetId == "LBTC" && !e.network.LiquidRegtest? then Err(InvalidEndpoint)
    else if e.assetId == "BTC" && e.network.LiquidRegtest? then Err(InvalidEndpoint)
    else if e.assetHash.Some? && !IsAssetHash(e.assetHash.value) then Err(InvalidEndpoint)
    else Ok(())
  }

  function CanonicalId(e: EndpointId): string {
    e.assetId + "@" + NetworkText(e.network)
  }

  lemma NetworksByName()
    ensures NetworkText(LiquidRegtest) == "liquid-regtest" && NetworkText(BitcoinRegtest) == "bitcoin-regtest"
    ensures NetworkText(LightningRegtest) == "lightning-regtest" && NetworkText(ArkRegtest) == "ark-regtest"
  {
  }

  // Encoding.

  /** A 64-bit length, most significant byte first. */
  function BigEndian(n: nat, size: nat): (s: string)
    ensures |s| == size
  {
    if size == 0 then "" else BigEndian(n / 256, size - 1) + [(n % 256) as char]
  }

  function Field(value: string): string {
    BigEndian(|value|, 8) + value
  }

  function EncodeFields(fields: seq<string>): string {
    if fields == [] then "" else EncodeFields(fields[..|fields| - 1]) + Field(fields[|fields| - 1])
  }

  function OptionalNumber(n: Option<U64>): string {
    if n.Some? then Print(n.value) else ""
  }

  function OptionalText(t: Option<Text>): string {
    if t.Some? then t.value else ""
  }

  // The signed fields, in five groups.

  function IdentityFields(q: Quote): seq<string> {
    ["xmm-quote-v1", Print(q.version), q.quoteId, q.intentId, CanonicalId(q.source),
     CanonicalId(q.destination), OptionalText(q.source.assetHash), OptionalText(q.destination.assetHash)]
  }

  function AmountFields(q: Quote): seq<string> {
    [Print(q.amountIn), Print(q.minAmountOut), Print(q.amountOut), Print(q.fee), Print(q.feeLimit)]
  }

  function PartyFields(q: Quote): seq<string> {
    [q.hashCommitment, q.claimKey, q.refundKey, q.sourceDestination, q.destinationDestination,
     q.refundDestination]
  }

  function DeadlineFields(q: Quote): seq<string> {
    [Print(q.sourceRefundHeight), Print(q.destinationRefundHeight), OptionalNumber(q.lightningExpiryHeight),
     Print(q.context.sourceHeight), Print(q.context.destinationHeight), Print(q.context.sourceRefundAt),
     Print(q.context.destinationRefundAt), OptionalNumber(q.context.lightningExpiryAt),
     Print(q.context.marginSeconds), Print(q.expiresAt)]
  }

  function BindingFields(q: Quote): seq<string> {
    [q.nonce, q.solverKeyId, q.adapterId, OptionalText(q.paymentRequest)]
  }

  function QuoteFields(q: Quote): seq<string> {
    IdentityFields(q) + (AmountFields(q) + (PartyFields(q) + (DeadlineFields(q) + BindingFields(q))))
  }

  /** `append_field`, for the `k`-th of the fields that follow `base`. */
  method AppendField(output: string, value: string, ghost base: string, ghost fields: seq<string>, ghost k: nat)
    returns (r: string)
    requires k < |fields| && fields[k] == value && output == base + EncodeFields(fields[..k])
    ensures r == output + Field(value) == base + EncodeFields(fields[..k + 1])
  {
    r := output + BigEndian(|value|, 8);
    r := r + value;
    assert fields[..k + 1][..k] == fields[..k];
  }

  method AppendIdentity(output: string, q: Quote) returns (r: string)
    ensures r == output + EncodeFields(IdentityFields(q))
  {
    hide Field, CanonicalId;
    ghost var f := IdentityFields(q);
    r := output;
    r := AppendField(r, "xmm-quote-v1", output, f, 0);
    r := AppendField(r, Print(q.version), output, f, 1);
    r := AppendField(r, q.quoteId, output, f, 2);
    r := AppendField(r, q.intentId, output, f, 3);
    r := AppendField(r, CanonicalId(q.source), output, f, 4);
    r := AppendField(r, CanonicalId(q.destination), output, f, 5);
    r := AppendField(r, OptionalText(q.source.assetHash), output, f, 6);
    r := AppendField(r, OptionalText(q.destination.assetHash), output, f, 7);
    assert f[..8] == f;
  }

  method AppendAmounts(output: string, q: Quote) returns (r: string)
    ensures r == output + EncodeFields(AmountFields(q))
  {
    hide Field, CanonicalId;
    ghost var f := AmountFields(q);
    r := output;
    r := AppendField(r, Print(q.amountIn), output, f, 0);
    r := AppendField(r, Print(q.minAmountOut), output, f, 1);
    r := AppendField(r, Print(q.amountOut), output, f, 2);
    r := AppendField(r, Print(q.fee), output, f, 3);
    r := AppendField(r, Print(q.feeLimit), output, f, 4);
    assert f[..5] == f;
  }

  method AppendParties(output: string, q: Quote) returns (r: string)
    ensures r == output + EncodeFields(PartyFields(q))
  {
    hide Field, CanonicalId;
    ghost var f := PartyFields(q);
    r := output;
    r := AppendField(r, q.hashCommitment, output, f, 0);
    r := AppendField(r, q.claimKey, output, f, 1);
    r := AppendField(r, q.refundKey, output, f, 2);
    r := AppendField(r, q.sourceDestination, output, f, 3);
    r := AppendField(r, q.destinationDestination, output, f, 4);
    r := AppendField(r, q.refundDestination, output, f, 5);
    assert f[..6] == f;
  }

  method AppendDeadlines(output: string, q: Quote) returns (r: string)
    ensures r == output + EncodeFields(DeadlineFields(q))
  {
    hide Field, CanonicalId, Print, OptionalNumber;
    ghost var f := DeadlineFields(q);
    r := output;
    r := AppendField(r, Print(q.sourceRefundHeight), output, f, 0);
    r := AppendField(r, Print(q.destinationRefundHeight), output, f, 1);
    r := AppendField(r, OptionalNumber(q.lightningExpiryHeight), output, f, 2);
    r := AppendField(r, Print(q.context.sourceHeight), output, f, 3);
    r := AppendField(r, Print(q.context.destinationHeight), output, f, 4);
    r := AppendField(r, Print(q.context.sourceRefundAt), output, f, 5);
    r := AppendField(r, Print(q.context.destinationRefundAt), output, f, 6);
    r := AppendField(r, OptionalNumber(q.context.lightningExpiryAt), output, f, 7);
    r := AppendField(r, Print(q.context.marginSeconds), output, f, 8);
    r := AppendField(r, Print(q.expiresAt), output, f, 9);
    assert f[..10] == f;
  }

  method AppendBindings(output: string, q: Quote) returns (r: string)
    ensures r == output + EncodeFields(BindingFields(q))
  {
    hide Field, CanonicalId;
    ghost var f := BindingFields(q);
    r := output;
    r := AppendField(r, q.nonce, output, f, 0);
    r := AppendField(r, q.solverKeyId, output, f, 1);
    r := AppendField(r, q.adapterId, output, f, 2);
    r := AppendField(r, OptionalText(q.paymentRequest), output, f, 3);
    assert f[..4] == f;
  }

  /** The bytes `quote_digest` hashes: 33 length-prefixed fields in order. */
  method QuoteBytes(q: Quote) returns (bytes: string)
    ensures bytes == EncodeFields(QuoteFields(q))
  {
    bytes := AppendIdentity("", q);
    bytes := AppendAmounts(bytes, q);
    bytes := AppendParties(bytes, q);
    bytes := AppendDeadlines(bytes, q);
    bytes := AppendBindings(bytes, q);
    FieldsConcat(q);
  }

  lemma FieldsConcat(q: Quote)
    ensures EncodeFields(QuoteFields(q))
      == "" + EncodeFields(IdentityFields(q)) + EncodeFields(AmountFields(q)) + EncodeFields(PartyFields(q))
         + EncodeFields(DeadlineFields(q)) + EncodeFields(BindingFields(q))
  {
    hide EncodeFields, IdentityFields, AmountFields, PartyFields, DeadlineFields, BindingFields;
    var d := DeadlineFields(q) + BindingFields(q);
    EncodeConcat(DeadlineFields(q), BindingFields(q));
    EncodeConcat(PartyFields(q), d);
    EncodeConcat(AmountFields(q), PartyFields(q) + d);
    EncodeConcat(IdentityFields(q), AmountFields(q) + (PartyFields(q) + d));
  }

  /** The fields by name, as the digest of the protocol's first version lists them. */
  lemma FieldsInOrder(q: Quote)
    ensures QuoteFields(q) == [
      "xmm-quote-v1", Print(q.version), q.quoteId, q.intentId, q.source.assetId + "@" + NetworkText(q.source.network),
      q.destination.assetId + "@" + NetworkText(q.destination.network), q.source.assetHash.UnwrapOr(""),
      q.destination.assetHash.UnwrapOr(""), Print(q.amountIn), Print(q.minAmountOut), Print(q.amountOut), Print(q.fee),
      Print(q.feeLimit), q.hashCommitment, q.claimKey, q.refundKey, q.sourceDestination, q.destinationDestination,
      q.refundDestination, Print(q.sourceRefundHeight), Print(q.destinationRefundHeight),
      if q.lightningExpiryHeight.Some? then Print(q.lightningExpiryHeight.value) else "",
      Print(q.context.sourceHeight), Print(q.context.destinationHeight), Print(q.context.sourceRefundAt),
      Print(q.context.destinationRefundAt),
      if q.context.lightningExpiryAt.Some? then Print(q.context.lightningExpiryAt.value) else "",
      Print(q.context.marginSeconds), Print(q.expiresAt), q.nonce, q.solverKeyId, q.adapterId,
      q.paymentRequest.UnwrapOr("")]
  {
    hide Print;
  }

  /** The number some bytes write, the most significant first. */
  function BytesValue(s: string): nat {
    if s == "" then 0 else 256 * BytesValue(s[..|s| - 1]) + s[|s| - 1] as int
  }

  lemma {:induction false} BigEndianReads(n: nat, size: nat)
    requires n < Pow256(size)
    ensures BytesValue(BigEndian(n, size)) == n
  {
    if size > 0 {
      BigEndianReads(n / 256, size - 1);
      var s := BigEndian(n, size);
      assert s[..size - 1] == BigEndian(n / 256, size - 1);
    }
  }

  /** A field is its length in eight bytes, the most significant first, then its text. */
  lemma FieldIsPrefixed(value: Text)
    ensures var f := Field(value); |f| == 8 + |value| && BytesValue(f[..8]) == |value| && f[8..] == value
  {
    assert Pow256(8) == U64_BOUND;
    BigEndianReads(|value|, 8);
    assert Field(value)[..8] == BigEndian(|value|, 8);
  }

  // Length prefixes make the field list recoverable.

  lemma {:induction false} BigEndianIsInjective(a: nat, b: nat, size: nat)
    requires a < Pow256(size) && b < Pow256(size) && BigEndian(a, size) == BigEndian(b, size)
    ensures a == b
  {
    if size > 0 {
      var s, t := BigEndian(a, size), BigEndian(b, size);
      assert s[size - 1] == t[size - 1];
      assert s[..size - 1] == BigEndian(a / 256, size - 1) && t[..size - 1] == BigEndian(b / 256, size - 1);
      BigEndianIsInjective(a / 256, b / 256, size - 1);
    }
  }

  function Pow256(n: nat): nat {
    if n == 0 then 1 else 256 * Pow256(n - 1)
  }

  predicate Short(fields: seq<string>) {
    forall i :: 0 <= i < |fields| ==> |fields[i]| < U64_BOUND
  }

  lemma EncodeSnoc(fields: seq<string>, last: string)
    ensures EncodeFields(fields + [last]) == EncodeFields(fields) + Field(last)
  {
    assert (fields + [last])[..|fields|] == fields;
  }

  lemma {:induction false} EncodeConcat(a: seq<string>, b: seq<string>)
    ensures EncodeFields(a + b) == EncodeFields(a) + EncodeFields(b)
    decreases |b|
  {
    hide Field;
    if b == [] {
      assert a + b == a;
    } else {
      var front, last := b[..|b| - 1], b[|b| - 1];
      EncodeConcat(a, front);
      EncodeSnoc(a + front, last);
      EncodeSnoc(front, last);
      hide EncodeFields;
      assert front + [last] == b && (a + front) + [last] == a + b;
      assert (EncodeFields(a) + EncodeFields(front)) + Field(last)
        == EncodeFields(a) + (EncodeFields(front) + Field(last));
    }
  }

  lemma EncodeFirst(fields: seq<string>)
    requires fields != []
    ensures EncodeFields(fields) == Field(fields[0]) + EncodeFields(fields[1..])
  {
    EncodeConcat([fields[0]], fields[1..]);
    assert fields == [fields[0]] + fields[1..];
    assert [fields[0]][..0] == [];
    assert EncodeFields([fields[0]]) == Field(fields[0]);
  }

  /** A length-prefixed field is recovered from any text it starts. */
  lemma FieldSplits(a: string, s: string, b: string, t: string)
    requires |a| < U64_BOUND && |b| < U64_BOUND && Field(a) + s == Field(b) + t
    ensures a == b && s == t
  {
    var whole := Field(a) + s;
    assert whole[..8] == BigEndian(|a|, 8) && (Field(b) + t)[..8] == BigEndian(|b|, 8);
    assert Pow256(8) == U64_BOUND;
    BigEndianIsInjective(|a|, |b|, 8);
    assert a == whole[8..8 + |a|] && b == (Field(b) + t)[8..8 + |b|];
    assert s == whole[8 + |a|..] && t == (Field(b) + t)[8 + |b|..];
  }

  lemma {:induction false} EncodingIsInjective(a: seq<string>, b: seq<string>)
    requires Short(a) && Short(b) && EncodeFields(a) == EncodeFields(b)
    ensures a == b
    decreases |a|
  {
    if a != [] {
      EncodeFirst(a);
    }
    if b != [] {
      EncodeFirst(b);
    }
    if a != [] && b != [] {
      FieldSplits(a[0], EncodeFields(a[1..]), b[0], EncodeFields(b[1..]));
      EncodingIsInjective(a[1..], b[1..]);
      assert a == [a[0]] + a[1..] && b == [b[0]] + b[1..];
    }
  }

  // Terms.

  datatype Registry = Registry(
    enabled: (EndpointId, EndpointId) -> bool, adapter: (EndpointId, EndpointId) -> Option<Text>)

  predicate BindsIntent(i: Intent, q: Quote) {
    && q.intentId == i.intentId && q.source == i.source && q.destination == i.destination
    && q.amountIn == i.amountIn && q.minAmountOut == i.minAmountOut && q.feeLimit == i.feeLimit
    && q.hashCommitment == i.hashCommitment && q.claimKey == i.claimKey && q.refundKey == i.refundKey
    && q.sourceDestination == i.sourceDestination && q.destinationDestination == i.destinationDestination
    && q.refundDestination == i.refundDestination && q.context == i.context && q.nonce == i.nonce
  }

  function ValidateDeadlineOrder(q: Quote, c: DeadlineContext, now: U64): Result<(), QuoteError> {
    if c.sourceRefundAt <= now || c.destinationRefundAt <= now then Err(DeadlineRejected)
    else if c.lightningExpiryAt.Some?
      && SourceDeadline(q, c) <= SaturatingAdd(DestinationDeadline(q, c), c.marginSeconds)
      then Err(DeadlineRejected)
    else if q.sourceRefundHeight != c.sourceRefundHeight || q.destinationRefundHeight != c.destinationRefundHeight
      || q.lightningExpiryHeight != c.lightningExpiryHeight then Err(DeadlineRejected)
    else Ok(())
  }

  /** A Lightning side expires, any other side refunds. */
  function SourceDeadline(q: Quote, c: DeadlineContext): U64
    requires c.lightningExpiryAt.Some?
  {
    if q.source.network.LightningRegtest? then c.lightningExpiryAt.value else c.sourceRefundAt
  }

  function DestinationDeadline(q: Quote, c: DeadlineContext): U64
    requires c.lightningExpiryAt.Some?
  {
    if q.source.network.LightningRegtest? then c.destinationRefundAt else c.lightningExpiryAt.value
  }

  function ValidateQuoteTerms(i: Intent, q: Quote, registry: Registry, c: DeadlineContext, now: U64)
    : Result<(), QuoteError>
  {
    if i.version != 1 || q.version != 1 || i.version != q.version then Err(QuoteRejected)
    else
      var _ :- ValidateEndpoint(i.source);
      var _ :- ValidateEndpoint(i.destination);
      var _ :- ValidateEndpoint(q.source);
      var _ :- ValidateEndpoint(q.destination);
      if (i.source.assetId == "TEST-DEPIX" && i.source.assetHash.None?)
         || (i.destination.assetId == "TEST-DEPIX" && i.destination.assetHash.None?) then Err(QuoteRejected)
      else if !BindsIntent(i, q) then Err(QuoteRejected)
      else if !registry.enabled(i.source, i.destination) then Err(UnsupportedRoute)
      else
        match registry.adapter(i.source, i.destination)
        case None => Err(QuoteRejected)
        case Some(adapter) =>
          if q.adapterId != adapter then Err(QuoteRejected)
          else if q.amountOut < i.minAmountOut || q.fee > i.feeLimit || q.expiresAt > i.expiresAt || q.expiresAt <= now
            then Err(QuoteRejected)
          else if q.context != c then Err(DeadlineRejected)
          else ValidateDeadlineOrder(q, c, now)
  }

  ghost predicate Accepted(q: Quote) {
    exists i, registry, c, now: U64 :: ValidateQuoteTerms(i, q, registry, c, now).Ok?
  }

  /** What a valid endpoint is: an upper-case id, the right network for the three known assets, and
      an asset hash of 64 lower-case hexadecimal digits if any. */
  lemma EndpointIsValidIff(e: EndpointId)
    ensures ValidateEndpoint(e).Ok? <==>
      && e.assetId != ""
      && (forall i :: 0 <= i < |e.assetId| ==> var c := e.assetId[i]; 'A' <= c <= 'Z' || '0' <= c <= '9' || c == '-')
      && (e.assetId == "TEST-DEPIX" || e.assetId == "LBTC" ==> e.network == LiquidRegtest)
      && (e.assetId == "BTC" ==> e.network != LiquidRegtest)
      && (e.assetHash.Some? ==>
            && |e.assetHash.value| == 64
            && forall i :: 0 <= i < 64 ==>
                 '0' <= e.assetHash.value[i] <= '9' || 'a' <= e.assetHash.value[i] <= 'f')
    ensures ValidateEndpoint(e).Ok? || ValidateEndpoint(e) == Err(InvalidEndpoint)
  {
  }

  /** A quote is accepted exactly when it copies the intent, the trusted context and the route's
      adapter, pays at least the least amount for at most the fee limit, expires after now and
      not after the intent, and its deadlines are ahead and in order by the margin. Plain integers:
      a sum past 64 bits is later than any deadline. */
  lemma QuoteIsAcceptedIff(i: Intent, q: Quote, registry: Registry, c: DeadlineContext, now: U64)
    ensures ValidateQuoteTerms(i, q, registry, c, now).Ok? <==>
      && i.version == 1 && i.context == c
      && ValidateEndpoint(i.source).Ok? && ValidateEndpoint(i.destination).Ok?
      && (i.source.assetId == "TEST-DEPIX" ==> i.source.assetHash.Some?)
      && (i.destination.assetId == "TEST-DEPIX" ==> i.destination.assetHash.Some?)
      && registry.enabled(i.source, i.destination) && registry.adapter(i.source, i.destination) == Some(q.adapterId)
      && q == Quote(
           1, q.quoteId, i.intentId, i.source, i.destination, i.amountIn, i.minAmountOut, q.amountOut, q.fee,
           i.feeLimit, i.hashCommitment, i.claimKey, i.refundKey, i.sourceDestination, i.destinationDestination,
           i.refundDestination, c.sourceRefundHeight, c.destinationRefundHeight, c.lightningExpiryHeight, c,
           q.expiresAt, i.nonce, q.solverKeyId, q.adapterId, q.paymentRequest)
      && q.amountOut >= i.minAmountOut && q.fee <= i.feeLimit && now < q.expiresAt <= i.expiresAt
      && now < c.sourceRefundAt && now < c.destinationRefundAt
      && (c.lightningExpiryAt.Some? ==>
            if i.source.network == LightningRegtest
            then c.lightningExpiryAt.value > c.destinationRefundAt + c.marginSeconds
            else c.sourceRefundAt > c.lightningExpiryAt.value + c.marginSeconds)
  {
    hide ValidateEndpoint;
  }

  /** Saturation never lets a quote through: in an accepted quote the side the user must be able
      to recover from outlasts the other by more than the margin, in exact arithmetic. */
  lemma DeadlinesAreOrdered(i: Intent, q: Quote, registry: Registry, c: DeadlineContext, now: U64)
    requires ValidateQuoteTerms(i, q, registry, c, now).Ok? && c.lightningExpiryAt.Some?
    ensures q.source.network.LightningRegtest?
      ==> c.lightningExpiryAt.value > c.destinationRefundAt + c.marginSeconds > now
    ensures !q.source.network.LightningRegtest?
      ==> c.sourceRefundAt > c.lightningExpiryAt.value + c.marginSeconds
  {
  }

  /** What acceptance fixes and the encoding leaves out. */
  lemma AcceptedFacts(q: Quote)
    requires Accepted(q)
    ensures ValidateEndpoint(q.source).Ok? && ValidateEndpoint(q.destination).Ok?
    ensures q.sourceRefundHeight == q.context.sourceRefundHeight
    ensures q.destinationRefundHeight == q.context.destinationRefundHeight
    ensures q.lightningExpiryHeight == q.context.lightningExpiryHeight
  {
  }

  // Injectivity.

  lemma PrintIsInjective(a: nat, b: nat)
    requires Print(a) == Print(b)
    ensures a == b
  {
    PrintParses(a);
    PrintParses(b);
  }

  lemma OptionalNumberIsInjective(a: Option<U64>, b: Option<U64>)
    requires OptionalNumber(a) == OptionalNumber(b)
    ensures a == b
  {
    if a.Some? && b.Some? {
      PrintIsInjective(a.value, b.value);
    }
  }

  lemma NetworkTextIsInjective(a: Network, b: Network)
    requires NetworkText(a) == NetworkText(b)
    ensures a == b
  {
    assert NetworkText(a)[2] == NetworkText(b)[2];
  }

  /** A valid endpoint is what its id and its hash field say. */
  lemma EndpointIsRecovered(a: EndpointId, b: EndpointId)
    requires ValidateEndpoint(a).Ok? && ValidateEndpoint(b).Ok?
    requires CanonicalId(a) == CanonicalId(b) && OptionalText(a.assetHash) == OptionalText(b.assetHash)
    ensures a == b
  {
    assert '@' !in a.assetId && '@' !in b.assetId;
    assert CanonicalId(a) == a.assetId + ['@'] + NetworkText(a.network);
    assert CanonicalId(b) == b.assetId + ['@'] + NetworkText(b.network);
    FirstSeparator(a.assetId, NetworkText(a.network), b.assetId, NetworkText(b.network), '@');
    NetworkTextIsInjective(a.network, b.network);
  }

  lemma GroupsAreEqual(a: Quote, b: Quote)
    requires QuoteFields(a) == QuoteFields(b)
    ensures IdentityFields(a) == IdentityFields(b) && AmountFields(a) == AmountFields(b)
    ensures PartyFields(a) == PartyFields(b) && DeadlineFields(a) == DeadlineFields(b)
    ensures BindingFields(a) == BindingFields(b)
  {
    hide CanonicalId, Print, OptionalNumber, OptionalText;
    var f, g := QuoteFields(a), QuoteFields(b);
    assert IdentityFields(a) == f[..8] && IdentityFields(b) == g[..8];
    assert AmountFields(a) == f[8..13] && AmountFields(b) == g[8..13];
    assert PartyFields(a) == f[13..19] && PartyFields(b) == g[13..19];
    assert DeadlineFields(a) == f[19..29] && DeadlineFields(b) == g[19..29];
    assert BindingFields(a) == f[29..] && BindingFields(b) == g[29..];
  }

  lemma IdentityIsRecovered(a: Quote, b: Quote)
    requires ValidateEndpoint(a.source).Ok? && ValidateEndpoint(a.destination).Ok?
    requires ValidateEndpoint(b.source).Ok? && ValidateEndpoint(b.destination).Ok?
    requires IdentityFields(a) == IdentityFields(b)
    ensures a.version == b.version && a.quoteId == b.quoteId && a.intentId == b.intentId
    ensures a.source == b.source && a.destination == b.destination
  {
    hide CanonicalId, ValidateEndpoint, OptionalText;
    var f, g := IdentityFields(a), IdentityFields(b);
    assert f[1] == g[1] && f[2] == g[2] && f[3] == g[3] && f[4] == g[4] && f[5] == g[5] && f[6] == g[6] && f[7] == g[7];
    PrintIsInjective(a.version, b.version);
    EndpointIsRecovered(a.source, b.source);
    EndpointIsRecovered(a.destination, b.destination);
  }

  lemma AmountsAreRecovered(a: Quote, b: Quote)
    requires AmountFields(a) == AmountFields(b)
    ensures a.amountIn == b.amountIn && a.minAmountOut == b.minAmountOut && a.amountOut == b.amountOut
    ensures a.fee == b.fee && a.feeLimit == b.feeLimit
  {
    hide Print;
    var f, g := AmountFields(a), AmountFields(b);
    assert f[0] == g[0] && f[1] == g[1] && f[2] == g[2] && f[3] == g[3] && f[4] == g[4];
    PrintIsInjective(a.amountIn, b.amountIn);
    PrintIsInjective(a.minAmountOut, b.minAmountOut);
    PrintIsInjective(a.amountOut, b.amountOut);
    PrintIsInjective(a.fee, b.fee);
    PrintIsInjective(a.feeLimit, b.feeLimit);
  }

  lemma DeadlinesAreRecovered(a: Quote, b: Quote)
    requires DeadlineFields(a) == DeadlineFields(b)
    ensures a.sourceRefundHeight == b.sourceRefundHeight && a.destinationRefundHeight == b.destinationRefundHeight
    ensures a.lightningExpiryHeight == b.lightningExpiryHeight && a.expiresAt == b.expiresAt
    ensures a.context.sourceHeight == b.context.sourceHeight
    ensures a.context.destinationHeight == b.context.destinationHeight
    ensures a.context.sourceRefundAt == b.context.sourceRefundAt
    ensures a.context.destinationRefundAt == b.context.destinationRefundAt
    ensures a.context.lightningExpiryAt == b.context.lightningExpiryAt
    ensures a.context.marginSeconds == b.context.marginSeconds
  {
    hide Print, OptionalNumber;
    var f, g := DeadlineFields(a), DeadlineFields(b);
    assert f[0] == g[0] && f[1] == g[1] && f[2] == g[2] && f[3] == g[3] && f[4] == g[4];
    assert f[5] == g[5] && f[6] == g[6] && f[7] == g[7] && f[8] == g[8] && f[9] == g[9];
    PrintIsInjective(a.sourceRefundHeight, b.sourceRefundHeight);
    PrintIsInjective(a.destinationRefundHeight, b.destinationRefundHeight);
    OptionalNumberIsInjective(a.lightningExpiryHeight, b.lightningExpiryHeight);
    PrintIsInjective(a.context.sourceHeight, b.context.sourceHeight);
    PrintIsInjective(a.context.destinationHeight, b.context.destinationHeight);
    PrintIsInjective(a.context.sourceRefundAt, b.context.sourceRefundAt);
    PrintIsInjective(a.context.destinationRefundAt, b.context.destinationRefundAt);
    OptionalNumberIsInjective(a.context.lightningExpiryAt, b.context.lightningExpiryAt);
    PrintIsInjective(a.context.marginSeconds, b.context.marginSeconds);
    PrintIsInjective(a.expiresAt, b.expiresAt);
  }

  lemma PartiesAreRecovered(a: Quote, b: Quote)
    requires PartyFields(a) == PartyFields(b) && BindingFields(a) == BindingFields(b)
    ensures a.hashCommitment == b.hashCommitment && a.claimKey == b.claimKey && a.refundKey == b.refundKey
    ensures a.sourceDestination == b.sourceDestination && a.destinationDestination == b.destinationDestination
    ensures a.refundDestination == b.refundDestination && a.nonce == b.nonce
    ensures a.solverKeyId == b.solverKeyId && a.adapterId == b.adapterId
    ensures OptionalText(a.paymentRequest) == OptionalText(b.paymentRequest)
  {
    var f, g := PartyFields(a), PartyFields(b);
    assert f[0] == g[0] && f[1] == g[1] && f[2] == g[2] && f[3] == g[3] && f[4] == g[4] && f[5] == g[5];
    var h, k := BindingFields(a), BindingFields(b);
    assert h[0] == k[0] && h[1] == k[1] && h[2] == k[2] && h[3] == k[3];
  }

  lemma PrintFits(n: U64)
    ensures |Print(n)| <= 20
  {
    Pow10Of20(20);
    PrintIsShort(n, 20);
  }

  predicate Fits(s: string) {
    |s| < U64_BOUND
  }

  predicate AllFit(fields: seq<string>) {
    forall s :: s in fields ==> Fits(s)
  }

  lemma IdentityFits(q: Quote)
    ensures AllFit(IdentityFields(q))
  {
    hide Print;
    PrintFits(q.version);
  }

  lemma AmountsFit(q: Quote)
    ensures AllFit(AmountFields(q))
  {
    hide Print;
    PrintFits(q.amountIn);
    PrintFits(q.minAmountOut);
    PrintFits(q.amountOut);
    PrintFits(q.fee);
    PrintFits(q.feeLimit);
  }

  lemma DeadlinesFit(q: Quote)
    ensures AllFit(DeadlineFields(q))
  {
    hide Print;
    forall n: U64 ensures Fits(Print(n)) {
      PrintFits(n);
    }
  }

  lemma FieldsAreShort(q: Quote)
    ensures Short(QuoteFields(q))
  {
    hide IdentityFields, AmountFields, DeadlineFields;
    var f := QuoteFields(q);
    IdentityFits(q);
    AmountsFit(q);
    DeadlinesFit(q);
    forall i | 0 <= i < |f| ensures |f[i]| < U64_BOUND {
      assert f[i] in f && Fits(f[i]);
    }
  }

  /** Two accepted quotes with the same signed bytes are the same quote, up to a missing payment
      request against an empty one. The deadline heights the encoding leaves out are those the
      validator ties to the quote's own. */
  lemma SignedBytesAreInjective(a: Quote, b: Quote)
    requires Accepted(a) && Accepted(b) && EncodeFields(QuoteFields(a)) == EncodeFields(QuoteFields(b))
    ensures a.(paymentRequest := None) == b.(paymentRequest := None)
    ensures OptionalText(a.paymentRequest) == OptionalText(b.paymentRequest)
  {
    FieldsAreShort(a);
    FieldsAreShort(b);
    EncodingIsInjective(QuoteFields(a), QuoteFields(b));
    GroupsAreEqual(a, b);
    AcceptedFacts(a);
    AcceptedFacts(b);
    IdentityIsRecovered(a, b);
    AmountsAreRecovered(a, b);
    PartiesAreRecovered(a, b);
    DeadlinesAreRecovered(a, b);
  }

  /** The exception is real: every accepted quote without a payment request has an accepted twin
      with an empty one and the same signed bytes. */
  lemma EmptyRequestIsAmbiguous(a: Quote)
    requires Accepted(a) && a.paymentRequest.None?
    ensures var twin := a.(paymentRequest := Some(""));
      twin != a && Accepted(twin) && EncodeFields(QuoteFields(twin)) == EncodeFields(QuoteFields(a))
  {
    var twin := a.(paymentRequest := Some(""));
    var i, registry, c, now: U64 :| ValidateQuoteTerms(i, a, registry, c, now).Ok?;
    assert ValidateQuoteTerms(i, twin, registry, c, now).Ok?;
    assert BindingFields(twin) == BindingFields(a);
  }
}
