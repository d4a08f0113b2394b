/** What a hold invoice's HTLCs add up to (src/lightning/client.rs). */
module LightningInvoice {
  import opened Wrappers

  /** One HTLC entry of the node's answer; a field that is missing or malformed is None. */
  datatype Htlc = Htlc(state: Option<string>, amountMsat: Option<U64>, expiryHeight: Option<U64>)

  datatype Counted = Counted(msat: U64, expiry: U64)

  /** An entry counts if it was ever accepted and carries both numbers. */
  function Count(h: Htlc): Option<Counted> {
    if h.state.Some? && h.state.value in {"ACCEPTED", "SETTLED", "CANCELED"}
       && h.amountMsat.Some? && h.expiryHeight.Some?
    then Some(Counted(h.amountMsat.value, h.expiryHeight.value))
    else None
  }

  function Accepted(items: seq<Htlc>): seq<Counted> {
    if items == [] then []
    else
      var front, last := Accepted(items[..|items| - 1]), Count(items[|items| - 1]);
      if last.Some? then front + [last.value] else front
  }

  /** The checked fold over the amounts. */
  function FoldMsat(items: seq<Counted>): Option<U64> {
    if items == [] then Some(0)
    else
      var total :- FoldMsat(items[..|items| - 1]);
      CheckedAdd(total, items[|items| - 1].msat)
  }

  function LeastExpiry(items: seq<Counted>): U64
    requires items != []
  {
    var last := items[|items| - 1].expiry;
    if |items| == 1 then last else Min(LeastExpiry(items[..|items| - 1]), last)
  }

  /** `summarize_accepted_htlcs`: the accepted satoshis and the first expiry. */
  function Summarize(items: seq<Htlc>): (Option<U64>, Option<U64>) {
    var accepted := Accepted(items);
    if accepted == [] || !AllWhole(accepted) then (None, None)
    else
      match FoldMsat(accepted)
      case None => (None, None)
      case Some(msat) => (Some(msat / 1000), Some(LeastExpiry(accepted)))
  }

  /** What the counting entries carry together. */
  function TotalMsat(items: seq<Htlc>): nat {
    if items == [] then 0
    else
      var last := Count(items[|items| - 1]);
      TotalMsat(items[..|items| - 1]) + (if last.Some? then last.value.msat else 0)
  }

  predicate WholeSats(items: seq<Htlc>) {
    forall i :: 0 <= i < |items| && Count(items[i]).Some? ==> Count(items[i]).value.msat % 1000 == 0
  }

  predicate NoneCounts(items: seq<Htlc>) {
    forall i :: 0 <= i < |items| ==> Count(items[i]).None?
  }

  /** `e` is the least expiry of a counting entry. */
  ghost predicate IsLeastExpiry(items: seq<Htlc>, e: U64) {
    && (exists i :: 0 <= i < |items| && Count(items[i]).Some? && Count(items[i]).value.expiry == e)
    && (forall i :: 0 <= i < |items| && Count(items[i]).Some? ==> e <= Count(items[i]).value.expiry)
  }

  lemma AcceptedSplits(items: seq<Htlc>)
    requires items != []
    ensures var front, last := items[..|items| - 1], Count(items[|items| - 1]);
      Accepted(items) == if last.Some? then Accepted(front) + [last.value] else Accepted(front)
  {
  }

  lemma {:induction false} AcceptedIsEmpty(items: seq<Htlc>)
    ensures Accepted(items) == [] <==> NoneCounts(items)
  {
    if items != [] {
      var front, last := items[..|items| - 1], items[|items| - 1];
      AcceptedIsEmpty(front);
      AcceptedSplits(items);
      assert items == front + [last];
    }
  }

  predicate AllWhole(counted: seq<Counted>) {
    forall i :: 0 <= i < |counted| ==> counted[i].msat % 1000 == 0
  }

  lemma {:induction false} AcceptedIsWhole(items: seq<Htlc>)
    ensures AllWhole(Accepted(items)) <==> WholeSats(items)
  {
    if items != [] {
      var front, last := items[..|items| - 1], items[|items| - 1];
      AcceptedIsWhole(front);
      AcceptedSplits(items);
      WholeSplits(front, last);
      assert items == front + [last];
      if Count(last).Some? {
        AllWholeSplits(Accepted(front), Count(last).value);
      }
    }
  }

  lemma WholeSplits(front: seq<Htlc>, last: Htlc)
    ensures WholeSats(front + [last])
       <==> WholeSats(front) && (Count(last).Some? ==> Count(last).value.msat % 1000 == 0)
  {
    var items := front + [last];
    assert items[|front|] == last;
    assert forall i :: 0 <= i < |front| ==> items[i] == front[i];
  }

  lemma AllWholeSplits(front: seq<Counted>, last: Counted)
    ensures AllWhole(front + [last]) <==> AllWhole(front) && last.msat % 1000 == 0
  {
    var items := front + [last];
    assert items[|front|] == last;
    assert forall i :: 0 <= i < |front| ==> items[i] == front[i];
  }

  lemma FoldSnoc(front: seq<Counted>, last: Counted)
    ensures FoldMsat(front + [last])
      == if FoldMsat(front).Some? then CheckedAdd(FoldMsat(front).value, last.msat) else None
  {
    assert (front + [last])[..|front|] == front;
  }

  lemma {:induction false} FoldIsTotal(items: seq<Htlc>)
    ensures FoldMsat(Accepted(items)) == if TotalMsat(items) < U64_BOUND then Some(TotalMsat(items)) else None
  {
    if items != [] {
      var front, last := items[..|items| - 1], Count(items[|items| - 1]);
      FoldIsTotal(front);
      AcceptedSplits(items);
      hide Accepted, FoldMsat;
      if last.Some? {
        FoldSnoc(Accepted(front), last.value);
      }
    }
  }

  lemma {:induction false} TotalIsWhole(items: seq<Htlc>)
    requires WholeSats(items)
    ensures TotalMsat(items) % 1000 == 0
  {
    if items != [] {
      TotalIsWhole(items[..|items| - 1]);
    }
  }

  lemma {:induction false} LeastIsLeast(items: seq<Htlc>)
    requires Accepted(items) != []
    ensures IsLeastExpiry(items, LeastExpiry(Accepted(items)))
  {
    var front, last := items[..|items| - 1], items[|items| - 1];
    AcceptedSplits(items);
    assert items == front + [last];
    if Count(last).Some? {
      var counted := Accepted(front) + [Count(last).value];
      assert counted[..|counted| - 1] == Accepted(front);
      assert Count(items[|items| - 1]).Some?;
    }
    if Accepted(front) != [] {
      LeastIsLeast(front);
      var i :| 0 <= i < |front| && Count(front[i]).Some?
        && Count(front[i]).value.expiry == LeastExpiry(Accepted(front));
      assert items[i] == front[i];
    } else {
      AcceptedIsEmpty(front);
    }
  }

  /** An HTLC that is held, settled or was held until it was canceled counts, with the two numbers
      it states; one that is in any other state or misses a field counts for nothing. */
  lemma CountsIff(h: Htlc, msat: U64, expiry: U64)
    ensures Count(h) == Some(Counted(msat, expiry)) <==>
      && (h.state == Some("ACCEPTED") || h.state == Some("SETTLED") || h.state == Some("CANCELED"))
      && h.amountMsat == Some(msat) && h.expiryHeight == Some(expiry)
  {
  }

  /** An amount is reported exactly when some HTLC counts, all that count are whole satoshis and
      their sum fits 64 bits; it is then the exact sum, next to the least expiry height. */
  lemma SummaryIsExact(items: seq<Htlc>)
    ensures var (sats, expiry) := Summarize(items);
      && (sats.Some? <==> !NoneCounts(items) && WholeSats(items) && TotalMsat(items) < U64_BOUND)
      && (sats.Some? <==> expiry.Some?)
      && (sats.Some? ==> sats.value * 1000 == TotalMsat(items) && IsLeastExpiry(items, expiry.value))
  {
    AcceptedIsEmpty(items);
    AcceptedIsWhole(items);
    FoldIsTotal(items);
    if Accepted(items) != [] {
      LeastIsLeast(items);
    }
    if WholeSats(items) {
      TotalIsWhole(items);
    }
  }
}
