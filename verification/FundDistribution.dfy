/** The two-pointer settlement of the fund distribution example. Amounts are cells on the heap,
    as big.Int values are: the smaller of two amounts is returned by reference, so the in-place
    subtraction can change the amount that is added next. */
module FundDistribution {
  datatype Transfer = Transfer(from: nat, to: nat, amount: int)

  /** A wallet with what it still has to send, or still seems to need. */
  datatype Slot = Slot(wallet: nat, left: int)

  /** What the loop does, on values: a sender with too little is emptied, but the receiver's need
      is not reduced; a sender with enough pays the whole need. */
  function Settle(senders: seq<Slot>, receivers: seq<Slot>): seq<Transfer>
    decreases |senders| + |receivers|
  {
    if senders == [] || receivers == [] then [] else
    var s, r := senders[0], receivers[0];
    if s.left < r.left then
      [Transfer(s.wallet, r.wallet, s.left)] + Settle(senders[1..], receivers)
    else
      [Transfer(s.wallet, r.wallet, r.left)] + Settle(Spend(senders, r.left), receivers[1..])
  }

  /** The first sender pays an amount it has. */
  function Spend(senders: seq<Slot>, amount: int): seq<Slot>
    requires senders != []
  {
    if senders[0].left == amount then senders[1..]
    else [senders[0].(left := senders[0].left - amount)] + senders[1..]
  }

  function Sent(ts: seq<Transfer>, w: nat): int {
    if ts == [] then 0 else (if ts[0].from == w then ts[0].amount else 0) + Sent(ts[1..], w)
  }

  function Received(ts: seq<Transfer>, w: nat): int {
    if ts == [] then 0 else (if ts[0].to == w then ts[0].amount else 0) + Received(ts[1..], w)
  }

  function Total(slots: seq<Slot>): int {
    if slots == [] then 0 else slots[0].left + Total(slots[1..])
  }

  /** The sum of the first k. */
  function Prefix(slots: seq<Slot>, k: nat): int
    requires k <= |slots|
  {
    Total(slots[..k])
  }

  predicate Positive(slots: seq<Slot>) {
    forall i :: 0 <= i < |slots| ==> slots[i].left > 0
  }

  predicate Among(slots: seq<Slot>, w: nat) {
    exists i :: 0 <= i < |slots| && slots[i].wallet == w
  }

  predicate Distinct(slots: seq<Slot>) {
    forall i, j :: 0 <= i < j < |slots| ==> slots[i].wallet != slots[j].wallet
  }

  predicate Fair(senders: seq<Slot>, receivers: seq<Slot>) {
    Positive(senders) && Positive(receivers) && Distinct(senders) && Distinct(receivers)
  }

  // ---------------------------------------------------------------- what always holds

  lemma SpendKeeps(senders: seq<Slot>, amount: int)
    requires senders != [] && 0 < amount <= senders[0].left && Positive(senders) && Distinct(senders)
    ensures Positive(Spend(senders, amount)) && Distinct(Spend(senders, amount))
    ensures forall w :: Among(Spend(senders, amount), w) ==> Among(senders, w)
    ensures |Spend(senders, amount)| <= |senders|
    ensures Total(Spend(senders, amount)) == Total(senders) - amount
  {
    var after := Spend(senders, amount);
    if senders[0].left != amount {
      assert after[1..] == senders[1..];
    }
    forall w | Among(after, w) ensures Among(senders, w) {
      var i :| 0 <= i < |after| && after[i].wallet == w;
      assert senders[if senders[0].left == amount then i + 1 else i].wallet == w;
    }
  }

  lemma {:induction false} TransferCount(senders: seq<Slot>, receivers: seq<Slot>)
    ensures senders == [] || receivers == [] ==> Settle(senders, receivers) == []
    ensures senders != [] && receivers != [] ==> |Settle(senders, receivers)| <= |senders| + |receivers| - 1
    decreases |senders| + |receivers|
  {
    if senders != [] && receivers != [] {
      if senders[0].left < receivers[0].left {
        TransferCount(senders[1..], receivers);
      } else {
        TransferCount(Spend(senders, receivers[0].left), receivers[1..]);
      }
    }
  }

  /** Amounts are positive, and money goes from senders to receivers only. */
  lemma {:induction false} TransfersAreProper(senders: seq<Slot>, receivers: seq<Slot>)
    requires Fair(senders, receivers)
    ensures forall t <- Settle(senders, receivers) ::
              t.amount > 0 && Among(senders, t.from) && Among(receivers, t.to)
    decreases |senders| + |receivers|
  {
    if senders != [] && receivers != [] {
      assert senders[0].wallet == senders[0].wallet && receivers[0].wallet == receivers[0].wallet;
      if senders[0].left < receivers[0].left {
        TransfersAreProper(senders[1..], receivers);
        assert forall w :: Among(senders[1..], w) ==> Among(senders, w);
      } else {
        SpendKeeps(senders, receivers[0].left);
        TransfersAreProper(Spend(senders, receivers[0].left), receivers[1..]);
        assert forall w :: Among(receivers[1..], w) ==> Among(receivers, w);
      }
    }
  }

  lemma {:induction false} StrangersUntouched(ts: seq<Transfer>, w: nat)
    ensures (forall t <- ts :: t.from != w) ==> Sent(ts, w) == 0
    ensures (forall t <- ts :: t.to != w) ==> Received(ts, w) == 0
  {
    if ts == [] {
    } else {
      StrangersUntouched(ts[1..], w);
    }
  }

  lemma NotAmongUntouched(senders: seq<Slot>, receivers: seq<Slot>, w: nat)
    requires Fair(senders, receivers)
    ensures !Among(senders, w) ==> Sent(Settle(senders, receivers), w) == 0
    ensures !Among(receivers, w) ==> Received(Settle(senders, receivers), w) == 0
  {
    TransfersAreProper(senders, receivers);
    StrangersUntouched(Settle(senders, receivers), w);
  }

  /** No sender sends more than its surplus. */
  lemma {:induction false} NoOverspending(senders: seq<Slot>, receivers: seq<Slot>, i: nat)
    requires Fair(senders, receivers) && i < |senders|
    ensures 0 <= Sent(Settle(senders, receivers), senders[i].wallet) <= senders[i].left
    decreases |senders| + |receivers|
  {
    if receivers == [] {
    } else {
      var w := senders[i].wallet;
      if senders[0].left < receivers[0].left {
        if i == 0 {
          NotAmongUntouched(senders[1..], receivers, w);
        } else {
          NoOverspending(senders[1..], receivers, i - 1);
        }
      } else {
        var after := Spend(senders, receivers[0].left);
        SpendKeeps(senders, receivers[0].left);
        if i == 0 && senders[0].left == receivers[0].left {
          NotAmongUntouched(after, receivers[1..], w);
        } else if senders[0].left == receivers[0].left {
          NoOverspending(after, receivers[1..], i - 1);
        } else {
          NoOverspending(after, receivers[1..], i);
        }
      }
    }
  }

  // ---------------------------------------------------------------- when the target is reached

  /** Everyone ends even, if the first receiver has already got `extra` that the loop forgot. */
  ghost predicate Even(senders: seq<Slot>, receivers: seq<Slot>, extra: int) {
    var ts := Settle(senders, receivers);
    && (forall i :: 0 <= i < |senders| ==> Sent(ts, senders[i].wallet) == senders[i].left)
    && (forall j :: 0 <= j < |receivers| ==>
          Received(ts, receivers[j].wallet) + (if j == 0 then extra else 0) == receivers[j].left)
  }

  lemma EvenAfterPartial(senders: seq<Slot>, receivers: seq<Slot>, extra: int)
    requires Fair(senders, receivers) && senders != [] && receivers != [] && senders[0].left < receivers[0].left
    ensures Even(senders, receivers, extra) <==> Even(senders[1..], receivers, extra + senders[0].left)
  {
    var ts, rest := Settle(senders, receivers), Settle(senders[1..], receivers);
    assert ts[1..] == rest;
    NotAmongUntouched(senders[1..], receivers, senders[0].wallet);
    assert Sent(ts, senders[0].wallet) == senders[0].left;
    assert forall i :: 1 <= i < |senders| ==>
        senders[1..][i - 1] == senders[i] && Sent(ts, senders[i].wallet) == Sent(rest, senders[i].wallet);
    assert forall j :: 1 <= j < |receivers| ==>
        Received(ts, receivers[j].wallet) == Received(rest, receivers[j].wallet);
    assert Received(ts, receivers[0].wallet) == senders[0].left + Received(rest, receivers[0].wallet);
    if Even(senders[1..], receivers, extra + senders[0].left) {
      forall i | 0 <= i < |senders| ensures Sent(ts, senders[i].wallet) == senders[i].left {
        if i > 0 {
          assert senders[1..][i - 1] == senders[i];
        }
      }
    }
  }

  /** How a full payment splits off from the rest of the transfers. */
  lemma FullPayment(senders: seq<Slot>, receivers: seq<Slot>)
    requires Fair(senders, receivers) && senders != [] && receivers != [] && senders[0].left >= receivers[0].left
    ensures var after := Spend(senders, receivers[0].left);
            var ts, rest := Settle(senders, receivers), Settle(after, receivers[1..]);
            && Received(ts, receivers[0].wallet) == receivers[0].left
            && Sent(ts, senders[0].wallet) == receivers[0].left + Sent(rest, senders[0].wallet)
            && (senders[0].left == receivers[0].left ==> Sent(rest, senders[0].wallet) == 0)
            && (forall i :: 1 <= i < |senders| ==> Sent(ts, senders[i].wallet) == Sent(rest, senders[i].wallet))
            && (forall j :: 1 <= j < |receivers| ==>
                  Received(ts, receivers[j].wallet) == Received(rest, receivers[j].wallet))
  {
    var after := Spend(senders, receivers[0].left);
    var ts, rest := Settle(senders, receivers), Settle(after, receivers[1..]);
    SpendKeeps(senders, receivers[0].left);
    assert ts[1..] == rest;
    NotAmongUntouched(after, receivers[1..], receivers[0].wallet);
    if senders[0].left == receivers[0].left {
      NotAmongUntouched(after, receivers[1..], senders[0].wallet);
    }
  }

  lemma EvenAfterFull(senders: seq<Slot>, receivers: seq<Slot>, extra: int)
    requires Fair(senders, receivers) && senders != [] && receivers != [] && senders[0].left >= receivers[0].left
    ensures Even(senders, receivers, extra) <==>
            extra == 0 && Even(Spend(senders, receivers[0].left), receivers[1..], 0)
  {
    hide Settle, Sent, Received;
    var after := Spend(senders, receivers[0].left);
    var ts, rest := Settle(senders, receivers), Settle(after, receivers[1..]);
    FullPayment(senders, receivers);
    var shift := if senders[0].left == receivers[0].left then 1 else 0;
    assert forall i :: 1 <= i < |senders| ==> after[i - shift] == senders[i];
    assert forall j :: 1 <= j < |receivers| ==> receivers[1..][j - 1] == receivers[j];
    if extra == 0 && Even(after, receivers[1..], 0) {
      forall i | 0 <= i < |senders| ensures Sent(ts, senders[i].wallet) == senders[i].left {
        if i > 0 {
          assert after[i - shift] == senders[i];
        } else if shift == 0 {
          assert after[0].wallet == senders[0].wallet;
        }
      }
      forall j | 0 <= j < |receivers|
        ensures Received(ts, receivers[j].wallet) + (if j == 0 then extra else 0) == receivers[j].left
      {
        if j > 0 {
          assert receivers[1..][j - 1] == receivers[j];
        }
      }
    }
    if Even(senders, receivers, extra) {
      forall i | 0 <= i < |after| ensures Sent(rest, after[i].wallet) == after[i].left {
        assert after[i].wallet == senders[i + shift].wallet;
      }
      forall j | 0 <= j < |receivers[1..]| ensures Received(rest, receivers[1..][j].wallet) == receivers[1..][j].left {
        assert receivers[1..][j] == receivers[j + 1];
      }
    }
  }

  /** With at most one receiver left, the books balance exactly when the totals do. */
  lemma {:induction false} LastReceiver(senders: seq<Slot>, receivers: seq<Slot>, extra: int)
    requires Fair(senders, receivers) && |receivers| <= 1 && extra >= 0 && (receivers == [] ==> extra == 0)
    ensures Even(senders, receivers, extra) <==> Total(senders) + extra == Total(receivers)
    decreases |senders| + |receivers|
  {
    TotalSign(senders);
    TotalSign(receivers);
    if receivers == [] {
      if senders != [] {
        assert Sent([], senders[0].wallet) == 0;
      }
    } else if senders == [] {
      assert Received([], receivers[0].wallet) == 0;
      assert Total(receivers) == receivers[0].left;
    } else if senders[0].left < receivers[0].left {
      EvenAfterPartial(senders, receivers, extra);
      LastReceiver(senders[1..], receivers, extra + senders[0].left);
    } else {
      EvenAfterFull(senders, receivers, extra);
      SpendKeeps(senders, receivers[0].left);
      LastReceiver(Spend(senders, receivers[0].left), receivers[1..], 0);
      TotalSign(senders[1..]);
      assert Total(receivers) == receivers[0].left;
    }
  }

  lemma {:induction false} TotalSign(slots: seq<Slot>)
    requires Positive(slots)
    ensures Total(slots) >= 0 && (Total(slots) == 0 <==> slots == [])
    decreases |slots|
  {
    if slots == [] {
    } else {
      TotalSign(slots[1..]);
    }
  }

  /** A receiver that was paid in part and is not the last one gets too much, or a later one nothing. */
  lemma {:induction false} SplitNeverEven(senders: seq<Slot>, receivers: seq<Slot>, extra: int)
    requires Fair(senders, receivers) && |receivers| >= 2 && extra > 0
    ensures !Even(senders, receivers, extra)
    decreases |senders|
  {
    if senders == [] {
      assert Received([], receivers[1].wallet) == 0;
    } else if senders[0].left < receivers[0].left {
      EvenAfterPartial(senders, receivers, extra);
      SplitNeverEven(senders[1..], receivers, extra + senders[0].left);
    } else {
      EvenAfterFull(senders, receivers, extra);
    }
  }

  /** Every receiver but the last is paid by one sender. */
  predicate NoSplit(senders: seq<Slot>, receivers: seq<Slot>)
    decreases |receivers|
  {
    |receivers| <= 1 || (
      && senders != []
      && receivers[0].left <= senders[0].left
      && NoSplit(Spend(senders, receivers[0].left), receivers[1..]))
  }

  lemma {:induction false} EvenIffNoSplit(senders: seq<Slot>, receivers: seq<Slot>)
    requires Fair(senders, receivers)
    ensures Even(senders, receivers, 0) <==> Total(senders) == Total(receivers) && NoSplit(senders, receivers)
    decreases |receivers|
  {
    if |receivers| <= 1 {
      LastReceiver(senders, receivers, 0);
    } else if senders == [] {
      assert Received([], receivers[1].wallet) == 0;
    } else if senders[0].left < receivers[0].left {
      EvenAfterPartial(senders, receivers, 0);
      SplitNeverEven(senders[1..], receivers, senders[0].left);
    } else {
      EvenAfterFull(senders, receivers, 0);
      SpendKeeps(senders, receivers[0].left);
      EvenIffNoSplit(Spend(senders, receivers[0].left), receivers[1..]);
    }
  }

  /** What a caller can check: every partial sum of the surpluses that falls before the last need
      is also a partial sum of the needs. */
  ghost predicate Aligned(senders: seq<Slot>, receivers: seq<Slot>) {
    forall i :: 0 < i <= |senders| ==> AlignedAt(receivers, Prefix(senders, i))
  }

  ghost predicate AlignedAt(receivers: seq<Slot>, sum: int) {
    receivers != [] && sum < Prefix(receivers, |receivers| - 1) ==>
      exists j :: 0 < j < |receivers| && Prefix(receivers, j) == sum
  }

  lemma PrefixStep(slots: seq<Slot>, k: nat)
    requires 0 < k <= |slots|
    ensures Prefix(slots, k) == slots[0].left + Prefix(slots[1..], k - 1)
  {
    assert slots[..k][1..] == slots[1..][..k - 1];
  }

  lemma {:induction false} PrefixGrows(slots: seq<Slot>, j: nat, k: nat)
    requires Positive(slots) && j <= k <= |slots|
    ensures Prefix(slots, j) <= Prefix(slots, k)
    ensures j < k ==> Prefix(slots, j) < Prefix(slots, k)
    decreases |slots|
  {
    if j == 0 {
      TotalSign(slots[..k]);
    } else {
      PrefixStep(slots, j);
      PrefixStep(slots, k);
      PrefixGrows(slots[1..], j - 1, k - 1);
    }
  }

  lemma ShiftAligned(receivers: seq<Slot>, sum: int)
    requires Positive(receivers) && |receivers| >= 2 && sum > receivers[0].left
    ensures AlignedAt(receivers, sum) <==> AlignedAt(receivers[1..], sum - receivers[0].left)
  {
    var rest, n := receivers[1..], receivers[0].left;
    PrefixStep(receivers, |receivers| - 1);
    if sum < Prefix(receivers, |receivers| - 1) {
      if exists j :: 0 < j < |receivers| && Prefix(receivers, j) == sum {
        var j :| 0 < j < |receivers| && Prefix(receivers, j) == sum;
        PrefixStep(receivers, j);
        assert Prefix(rest, 0) == 0;
        assert j - 1 > 0 && Prefix(rest, j - 1) == sum - n;
      }
      if exists j :: 0 < j < |rest| && Prefix(rest, j) == sum - n {
        var j :| 0 < j < |rest| && Prefix(rest, j) == sum - n;
        PrefixStep(receivers, j + 1);
        assert Prefix(receivers, j + 1) == sum;
      }
    }
  }

  lemma FirstNeedAligned(receivers: seq<Slot>)
    requires Positive(receivers) && |receivers| >= 2
    ensures AlignedAt(receivers, receivers[0].left)
  {
    PrefixStep(receivers, 1);
    assert Prefix(receivers[1..], 0) == 0;
    assert Prefix(receivers, 1) == receivers[0].left;
  }

  lemma SmallFirstMisaligned(senders: seq<Slot>, receivers: seq<Slot>)
    requires Fair(senders, receivers) && senders != [] && |receivers| >= 2 && senders[0].left < receivers[0].left
    ensures !Aligned(senders, receivers)
  {
    PrefixStep(senders, 1);
    assert Prefix(senders[1..], 0) == 0;
    assert Prefix(senders, 1) == senders[0].left;
    forall j: nat | 0 < j < |receivers| ensures Prefix(receivers, j) > senders[0].left {
      PrefixGrows(receivers, 1, j);
      PrefixStep(receivers, 1);
      assert Prefix(receivers[1..], 0) == 0;
    }
    assert !AlignedAt(receivers, Prefix(senders, 1));
  }

  lemma SpendPrefix(senders: seq<Slot>, amount: int, i: nat)
    requires senders != [] && 0 < i <= |senders| && senders[0].left >= amount
    ensures senders[0].left > amount ==>
              i <= |Spend(senders, amount)| && Prefix(Spend(senders, amount), i) == Prefix(senders, i) - amount
    ensures senders[0].left == amount ==>
              i - 1 <= |Spend(senders, amount)| && Prefix(Spend(senders, amount), i - 1) == Prefix(senders, i) - amount
  {
    var after := Spend(senders, amount);
    PrefixStep(senders, i);
    if senders[0].left > amount {
      PrefixStep(after, i);
      assert after[1..] == senders[1..];
    }
  }

  lemma AlignedAfterFull(senders: seq<Slot>, receivers: seq<Slot>)
    requires Fair(senders, receivers) && senders != [] && |receivers| >= 2 && senders[0].left >= receivers[0].left
    ensures Aligned(senders, receivers) <==> Aligned(Spend(senders, receivers[0].left), receivers[1..])
  {
    var n, after, rest := receivers[0].left, Spend(senders, receivers[0].left), receivers[1..];
    var shift := if senders[0].left == n then 1 else 0;
    forall i: nat | 0 < i <= |senders| ensures
      AlignedAt(receivers, Prefix(senders, i)) <==> i == shift || AlignedAt(rest, Prefix(after, i - shift))
    {
      SpendPrefix(senders, n, i);
      PrefixGrows(senders, 1, i);
      PrefixStep(senders, 1);
      assert Prefix(senders[1..], 0) == 0;
      if i == shift {
        FirstNeedAligned(receivers);
      } else {
        if i > 1 { PrefixGrows(senders, 1, i); }
        ShiftAligned(receivers, Prefix(senders, i));
      }
    }
    assert |after| == |senders| - shift;
    if Aligned(senders, receivers) {
      forall i: nat | 0 < i <= |after| ensures AlignedAt(rest, Prefix(after, i)) {
        assert AlignedAt(receivers, Prefix(senders, i + shift));
      }
    }
    if Aligned(after, rest) {
      forall i: nat | 0 < i <= |senders| ensures AlignedAt(receivers, Prefix(senders, i)) {
        assert i == shift || AlignedAt(rest, Prefix(after, i - shift));
      }
    }
  }

  lemma {:induction false} NoSplitIffAligned(senders: seq<Slot>, receivers: seq<Slot>)
    requires Fair(senders, receivers) && Total(senders) == Total(receivers)
    ensures NoSplit(senders, receivers) <==> Aligned(senders, receivers)
    decreases |receivers|
  {
    TotalSign(senders);
    TotalSign(receivers);
    if |receivers| <= 1 {
      forall i: nat | 0 < i <= |senders| ensures AlignedAt(receivers, Prefix(senders, i)) {
        PrefixGrows(senders, 0, i);
        assert Prefix(senders, 0) == 0;
        if receivers != [] {
          assert Prefix(receivers, 0) == 0;
        }
      }
    } else if senders[0].left < receivers[0].left {
      SmallFirstMisaligned(senders, receivers);
    } else {
      AlignedAfterFull(senders, receivers);
      SpendKeeps(senders, receivers[0].left);
      NoSplitIffAligned(Spend(senders, receivers[0].left), receivers[1..]);
    }
  }

  lemma EvenIffAligned(senders: seq<Slot>, receivers: seq<Slot>)
    requires Fair(senders, receivers)
    ensures Even(senders, receivers, 0) <==> Total(senders) == Total(receivers) && Aligned(senders, receivers)
  {
    EvenIffNoSplit(senders, receivers);
    if Total(senders) == Total(receivers) {
      NoSplitIffAligned(senders, receivers);
    }
  }

  // ---------------------------------------------------------------- from wallets to slots

  function Difference(initial: seq<int>, target: seq<int>): seq<int>
    requires |initial| == |target|
  {
    seq(|initial|, w requires 0 <= w < |initial| => initial[w] - target[w])
  }

  /** The wallets among the first n with a surplus, in order. */
  function Surpluses(diff: seq<int>, n: nat): seq<Slot>
    requires n <= |diff|
  {
    if n == 0 then []
    else if diff[n - 1] > 0 then Surpluses(diff, n - 1) + [Slot(n - 1, diff[n - 1])]
    else Surpluses(diff, n - 1)
  }

  function Deficits(diff: seq<int>, n: nat): seq<Slot>
    requires n <= |diff|
  {
    if n == 0 then []
    else if diff[n - 1] < 0 then Deficits(diff, n - 1) + [Slot(n - 1, -diff[n - 1])]
    else Deficits(diff, n - 1)
  }

  function Sum(s: seq<int>): int {
    if s == [] then 0 else Sum(s[..|s| - 1]) + s[|s| - 1]
  }

  lemma AmongAppend(slots: seq<Slot>, last: Slot)
    ensures Among(slots + [last], last.wallet)
    ensures forall w :: Among(slots, w) ==> Among(slots + [last], w)
  {
    var longer := slots + [last];
    assert longer[|slots|] == last;
    forall w | Among(slots, w) ensures Among(longer, w) {
      var i :| 0 <= i < |slots| && slots[i].wallet == w;
      assert longer[i].wallet == w;
    }
  }

  lemma NoSlots()
    ensures Positive([]) && Distinct([])
  {
  }

  lemma FairAppend(slots: seq<Slot>, last: Slot)
    requires Positive(slots) && Distinct(slots) && last.left > 0
    requires forall i :: 0 <= i < |slots| ==> slots[i].wallet < last.wallet
    ensures Positive(slots + [last]) && Distinct(slots + [last])
  {
  }

  lemma {:induction false} SurplusCovered(diff: seq<int>, n: nat, w: nat)
    requires n <= |diff| && w < n && diff[w] > 0
    ensures Among(Surpluses(diff, n), w)
    decreases n
  {
    AmongAppend(Surpluses(diff, n - 1), Slot(n - 1, diff[n - 1]));
    if w < n - 1 {
      SurplusCovered(diff, n - 1, w);
    }
  }

  lemma {:induction false} SurplusShape(diff: seq<int>, n: nat)
    requires n <= |diff|
    ensures var s := Surpluses(diff, n);
            && Positive(s) && Distinct(s)
            && (forall i :: 0 <= i < |s| ==> s[i].wallet < n && s[i].left == diff[s[i].wallet])
    decreases n
  {
    hide Positive, Distinct;
    if n == 0 {
      NoSlots();
    } else {
      SurplusShape(diff, n - 1);
      if diff[n - 1] > 0 {
        FairAppend(Surpluses(diff, n - 1), Slot(n - 1, diff[n - 1]));
      }
    }
  }

  lemma SurplusSlots(diff: seq<int>, n: nat)
    requires n <= |diff|
    ensures var s := Surpluses(diff, n);
            && Positive(s) && Distinct(s)
            && (forall i :: 0 <= i < |s| ==> s[i].wallet < n && s[i].left == diff[s[i].wallet])
            && (forall w: nat :: w < n && diff[w] > 0 ==> Among(s, w))
  {
    hide Positive, Distinct, Among, Surpluses;
    SurplusShape(diff, n);
    forall w: nat | w < n && diff[w] > 0 ensures Among(Surpluses(diff, n), w) {
      SurplusCovered(diff, n, w);
    }
  }

  lemma {:induction false} DeficitCovered(diff: seq<int>, n: nat, w: nat)
    requires n <= |diff| && w < n && diff[w] < 0
    ensures Among(Deficits(diff, n), w)
    decreases n
  {
    AmongAppend(Deficits(diff, n - 1), Slot(n - 1, -diff[n - 1]));
    if w < n - 1 {
      DeficitCovered(diff, n - 1, w);
    }
  }

  lemma {:induction false} DeficitShape(diff: seq<int>, n: nat)
    requires n <= |diff|
    ensures var s := Deficits(diff, n);
            && Positive(s) && Distinct(s)
            && (forall i :: 0 <= i < |s| ==> s[i].wallet < n && s[i].left == -diff[s[i].wallet])
    decreases n
  {
    hide Positive, Distinct;
    if n == 0 {
      NoSlots();
    } else {
      DeficitShape(diff, n - 1);
      if diff[n - 1] < 0 {
        FairAppend(Deficits(diff, n - 1), Slot(n - 1, -diff[n - 1]));
      }
    }
  }

  lemma DeficitSlots(diff: seq<int>, n: nat)
    requires n <= |diff|
    ensures var s := Deficits(diff, n);
            && Positive(s) && Distinct(s)
            && (forall i :: 0 <= i < |s| ==> s[i].wallet < n && s[i].left == -diff[s[i].wallet])
            && (forall w: nat :: w < n && diff[w] < 0 ==> Among(s, w))
  {
    hide Positive, Distinct, Among, Deficits;
    DeficitShape(diff, n);
    forall w: nat | w < n && diff[w] < 0 ensures Among(Deficits(diff, n), w) {
      DeficitCovered(diff, n, w);
    }
  }

  lemma {:induction false} TotalAppend(slots: seq<Slot>, last: Slot)
    ensures Total(slots + [last]) == Total(slots) + last.left
    decreases |slots|
  {
    if slots == [] {
      assert [last][1..] == [];
    } else {
      assert (slots + [last])[1..] == slots[1..] + [last];
      TotalAppend(slots[1..], last);
    }
  }

  lemma {:induction false} TotalsAreDifferences(diff: seq<int>, n: nat)
    requires n <= |diff|
    ensures Total(Surpluses(diff, n)) - Total(Deficits(diff, n)) == Sum(diff[..n])
    decreases n
  {
    if n == 0 {
    } else {
      TotalsAreDifferences(diff, n - 1);
      assert diff[..n][..n - 1] == diff[..n - 1];
      if diff[n - 1] > 0 {
        TotalAppend(Surpluses(diff, n - 1), Slot(n - 1, diff[n - 1]));
      } else if diff[n - 1] < 0 {
        TotalAppend(Deficits(diff, n - 1), Slot(n - 1, -diff[n - 1]));
      }
    }
  }

  lemma {:induction false} SumOfDifferences(initial: seq<int>, target: seq<int>, n: nat)
    requires |initial| == |target| && n <= |initial|
    ensures Sum(Difference(initial, target)[..n]) == Sum(initial[..n]) - Sum(target[..n])
    decreases n
  {
    if n == 0 {
    } else {
      SumOfDifferences(initial, target, n - 1);
      assert Difference(initial, target)[..n][..n - 1] == Difference(initial, target)[..n - 1];
      assert initial[..n][..n - 1] == initial[..n - 1] && target[..n][..n - 1] == target[..n - 1];
    }
  }

  /** The transfers that findTransfers returns. */
  function Transfers(initial: seq<int>, target: seq<int>): seq<Transfer>
    requires |initial| == |target|
  {
    var diff := Difference(initial, target);
    Settle(Surpluses(diff, |diff|), Deficits(diff, |diff|))
  }

  ghost predicate ReachesTarget(initial: seq<int>, target: seq<int>, ts: seq<Transfer>)
    requires |initial| == |target|
  {
    forall w: nat :: w < |initial| ==> initial[w] - Sent(ts, w) + Received(ts, w) == target[w]
  }

  /** Every transfer moves a positive amount from a wallet above its target to one below it, there
      are fewer of them than wallets to settle, and nobody sends more than it has to spare. */
  lemma TransfersAreSound(initial: seq<int>, target: seq<int>)
    requires |initial| == |target|
    ensures var diff := Difference(initial, target);
            var ts := Transfers(initial, target);
            && (forall t <- ts ::
                  t.amount > 0 && t.from < |diff| && t.to < |diff| && diff[t.from] > 0 && diff[t.to] < 0)
            && (ts != [] ==> |ts| <= |Surpluses(diff, |diff|)| + |Deficits(diff, |diff|)| - 1)
            && (forall w: nat :: w < |diff| && diff[w] > 0 ==> Sent(ts, w) <= diff[w] && Received(ts, w) == 0)
            && (forall w: nat :: w < |diff| && diff[w] <= 0 ==> Sent(ts, w) == 0)
  {
    var diff := Difference(initial, target);
    var n := |diff|;
    var senders, receivers := Surpluses(diff, n), Deficits(diff, n);
    SurplusSlots(diff, n);
    DeficitSlots(diff, n);
    TransfersAreProper(senders, receivers);
    TransferCount(senders, receivers);
    forall w: nat | w < n && diff[w] > 0
      ensures Sent(Settle(senders, receivers), w) <= diff[w] && Received(Settle(senders, receivers), w) == 0
    {
      var i: nat :| i < |senders| && senders[i].wallet == w;
      NoOverspending(senders, receivers, i);
      NotAmongUntouched(senders, receivers, w);
    }
    forall w: nat | w < n && diff[w] <= 0 ensures Sent(Settle(senders, receivers), w) == 0 {
      NotAmongUntouched(senders, receivers, w);
    }
  }

  /** A wallet that is not among the senders sends nothing, one not among the receivers gets nothing. */
  lemma StrangersStay(senders: seq<Slot>, receivers: seq<Slot>)
    requires Fair(senders, receivers)
    ensures forall w: nat :: !Among(senders, w) ==> Sent(Settle(senders, receivers), w) == 0
    ensures forall w: nat :: !Among(receivers, w) ==> Received(Settle(senders, receivers), w) == 0
  {
    forall w: nat
      ensures !Among(senders, w) ==> Sent(Settle(senders, receivers), w) == 0
      ensures !Among(receivers, w) ==> Received(Settle(senders, receivers), w) == 0
    {
      NotAmongUntouched(senders, receivers, w);
    }
  }

  lemma EvenReaches(initial: seq<int>, target: seq<int>)
    requires |initial| == |target|
    ensures var diff := Difference(initial, target);
            Even(Surpluses(diff, |diff|), Deficits(diff, |diff|), 0)
            ==> ReachesTarget(initial, target, Transfers(initial, target))
  {
    hide Settle, Sent, Received, Surpluses, Deficits;
    var diff := Difference(initial, target);
    var n := |diff|;
    var senders, receivers := Surpluses(diff, n), Deficits(diff, n);
    var ts := Settle(senders, receivers);
    SurplusSlots(diff, n);
    DeficitSlots(diff, n);
    StrangersStay(senders, receivers);
    if Even(senders, receivers, 0) {
      forall w: nat | w < n ensures initial[w] - Sent(ts, w) + Received(ts, w) == target[w] {
        if diff[w] > 0 {
          var i :| 0 <= i < |senders| && senders[i].wallet == w;
        } else if diff[w] < 0 {
          var j :| 0 <= j < |receivers| && receivers[j].wallet == w;
        }
      }
    }
  }

  lemma ReachesEven(initial: seq<int>, target: seq<int>)
    requires |initial| == |target| && ReachesTarget(initial, target, Transfers(initial, target))
    ensures var diff := Difference(initial, target); Even(Surpluses(diff, |diff|), Deficits(diff, |diff|), 0)
  {
    hide Settle, Sent, Received, Surpluses, Deficits;
    var diff := Difference(initial, target);
    var n := |diff|;
    var senders, receivers := Surpluses(diff, n), Deficits(diff, n);
    var ts := Settle(senders, receivers);
    SurplusSlots(diff, n);
    DeficitSlots(diff, n);
    StrangersStay(senders, receivers);
    forall i | 0 <= i < |senders| ensures Sent(ts, senders[i].wallet) == senders[i].left {
      assert !Among(receivers, senders[i].wallet);
    }
    forall j | 0 <= j < |receivers| ensures Received(ts, receivers[j].wallet) == receivers[j].left {
      assert !Among(senders, receivers[j].wallet);
    }
  }

  lemma ReachesIffEven(initial: seq<int>, target: seq<int>)
    requires |initial| == |target|
    ensures var diff := Difference(initial, target);
            ReachesTarget(initial, target, Transfers(initial, target))
            <==> Even(Surpluses(diff, |diff|), Deficits(diff, |diff|), 0)
  {
    hide ReachesTarget, Even, Transfers;
    EvenReaches(initial, target);
    if ReachesTarget(initial, target, Transfers(initial, target)) {
      ReachesEven(initial, target);
    }
  }

  lemma SlotTotals(initial: seq<int>, target: seq<int>)
    requires |initial| == |target|
    ensures var diff := Difference(initial, target);
            && Fair(Surpluses(diff, |diff|), Deficits(diff, |diff|))
            && Total(Surpluses(diff, |diff|)) - Total(Deficits(diff, |diff|)) == Sum(initial) - Sum(target)
  {
    var diff := Difference(initial, target);
    var n := |diff|;
    SurplusSlots(diff, n);
    DeficitSlots(diff, n);
    TotalsAreDifferences(diff, n);
    SumOfDifferences(initial, target, n);
    assert diff[..n] == diff && initial[..n] == initial && target[..n] == target;
  }

  /** Exactly when the transfers do what the function's comment says: the totals are equal, and
      every partial sum of the surpluses before the last need is a partial sum of the needs. */
  lemma ReachesTargetIff(initial: seq<int>, target: seq<int>)
    requires |initial| == |target|
    ensures var diff := Difference(initial, target);
            ReachesTarget(initial, target, Transfers(initial, target))
            <==> Sum(initial) == Sum(target) && Aligned(Surpluses(diff, |diff|), Deficits(diff, |diff|))
  {
    hide Surpluses, Deficits, Sum, Total, Even, Aligned, Fair, ReachesTarget, Transfers;
    var diff := Difference(initial, target);
    SlotTotals(initial, target);
    ReachesIffEven(initial, target);
    EvenIffAligned(Surpluses(diff, |diff|), Deficits(diff, |diff|));
  }

  /** With one wallet below its target and equal totals the target is reached. */
  lemma OneDeficitReachesTarget(initial: seq<int>, target: seq<int>)
    requires |initial| == |target| && Sum(initial) == Sum(target)
    requires var diff := Difference(initial, target); |Deficits(diff, |diff|)| == 1
    ensures ReachesTarget(initial, target, Transfers(initial, target))
  {
    var diff := Difference(initial, target);
    var n := |diff|;
    var senders, receivers := Surpluses(diff, n), Deficits(diff, n);
    SurplusSlots(diff, n);
    forall i: nat | 0 < i <= |senders| ensures AlignedAt(receivers, Prefix(senders, i)) {
      PrefixGrows(senders, 0, i);
      assert Prefix(senders, 0) == 0 == Prefix(receivers, 0);
    }
    ReachesTargetIff(initial, target);
  }

  /** Two senders and two receivers are enough to miss it: the first receiver gets 3 instead of 2. */
  lemma TwoDeficitsCanMiss()
    ensures Sum([1, 3, 0, 0]) == Sum([0, 0, 2, 2])
    ensures Transfers([1, 3, 0, 0], [0, 0, 2, 2]) == [Transfer(0, 2, 1), Transfer(1, 2, 2), Transfer(1, 3, 1)]
    ensures !ReachesTarget([1, 3, 0, 0], [0, 0, 2, 2], Transfers([1, 3, 0, 0], [0, 0, 2, 2]))
  {
    var diff := Difference([1, 3, 0, 0], [0, 0, 2, 2]);
    assert diff == [1, 3, -2, -2];
    var a, b, c, d := Slot(0, 1), Slot(1, 3), Slot(2, 2), Slot(3, 2);
    assert Surpluses(diff, 2) == [a, b];
    assert Surpluses(diff, 4) == [a, b];
    assert Deficits(diff, 2) == [];
    assert Deficits(diff, 4) == [c, d];
    MissingTransfers();
    SumsOfFour();
    var ts := [Transfer(0, 2, 1), Transfer(1, 2, 2), Transfer(1, 3, 1)];
    assert ts[1..] == [Transfer(1, 2, 2), Transfer(1, 3, 1)];
    assert ts[1..][1..] == [Transfer(1, 3, 1)];
    assert Received(ts[1..][1..], 2) == 0 && Received(ts[1..], 2) == 2 && Received(ts, 2) == 3;
    assert Sent(ts[1..][1..], 2) == 0 && Sent(ts[1..], 2) == 0 && Sent(ts, 2) == 0;
  }

  lemma SumsOfFour()
    ensures Sum([1, 3, 0, 0]) == 4 == Sum([0, 0, 2, 2])
  {
    assert [1, 3, 0, 0][..3] == [1, 3, 0] && [1, 3, 0][..2] == [1, 3] && [1, 3][..1] == [1] && [1][..0] == [];
    assert [0, 0, 2, 2][..3] == [0, 0, 2] && [0, 0, 2][..2] == [0, 0] && [0, 0][..1] == [0] && [0][..0] == [];
    assert Sum([1]) == 1 && Sum([1, 3]) == 4 && Sum([1, 3, 0]) == 4;
    assert Sum([0]) == 0 && Sum([0, 0]) == 0 && Sum([0, 0, 2]) == 2;
  }

  lemma MissingTransfers()
    ensures Settle([Slot(0, 1), Slot(1, 3)], [Slot(2, 2), Slot(3, 2)])
         == [Transfer(0, 2, 1), Transfer(1, 2, 2), Transfer(1, 3, 1)]
  {
    var a, b, c, d := Slot(0, 1), Slot(1, 3), Slot(2, 2), Slot(3, 2);
    assert [Slot(1, 1)][1..] == [] && [a, b][1..] == [b] && [c, d][1..] == [d];
    assert Settle([], [d]) == [];
    assert Settle([Slot(1, 1)], [d]) == [Transfer(1, 3, 1)];
    assert Spend([b], 2) == [Slot(1, 1)];
    assert Settle([b], [c, d]) == [Transfer(1, 2, 2)] + Settle([Slot(1, 1)], [d]);
    assert Settle([a, b], [c, d]) == [Transfer(0, 2, 1)] + Settle([b], [c, d]);
  }
}
