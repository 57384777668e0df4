/** findTransfers itself, on cells that are updated in place. */
module FundTransfers {
  import opened FundDistribution

  class BigInt {
    var v: int

    constructor (v: int)
      ensures this.v == v
    {
      this.v := v;
    }

    method Sub(x: BigInt, y: BigInt)
      modifies this
      ensures v == old(x.v) - old(y.v)
    {
      v := x.v - y.v;
    }

    method Add(x: BigInt, y: BigInt)
      modifies this
      ensures v == old(x.v) + old(y.v)
    {
      v := x.v + y.v;
    }
  }

  /** Returns one of its arguments, not a copy. */
  method MinBig(a: BigInt, b: BigInt) returns (m: BigInt)
    ensures m == if a.v < b.v then a else b
  {
    if a.v < b.v {
      return a;
    }
    return b;
  }

  ghost predicate Separate(cells: seq<BigInt>) {
    forall i, j :: 0 <= i < j < |cells| ==> cells[i] != cells[j]
  }

  ghost predicate Holds(cells: seq<BigInt>, values: seq<int>)
    reads cells
  {
    |cells| == |values| && forall i :: 0 <= i < |cells| ==> cells[i].v == values[i]
  }

  ghost predicate Indices(indices: seq<nat>, n: nat) {
    forall x :: 0 <= x < |indices| ==> indices[x] < n
  }

  ghost predicate Apart(a: seq<nat>, b: seq<nat>) {
    forall x, y :: 0 <= x < |a| && 0 <= y < |b| ==> a[x] != b[y]
  }

  /** The slots that the indices from k on stand for. */
  ghost function Queue(values: seq<int>, indices: seq<nat>, k: nat, sign: int): seq<Slot>
    requires k <= |indices| && Indices(indices, |values|)
  {
    seq(|indices| - k, i requires 0 <= i < |indices| - k => Slot(indices[k + i], sign * values[indices[k + i]]))
  }

  lemma QueueFrame(values: seq<int>, indices: seq<nat>, k: nat, sign: int, e: nat, v: int)
    requires k <= |indices| && Indices(indices, |values|) && e < |values|
    requires forall x :: k <= x < |indices| ==> indices[x] != e
    ensures Queue(values[e := v], indices, k, sign) == Queue(values, indices, k, sign)
  {
  }

  lemma QueueHead(values: seq<int>, indices: seq<nat>, k: nat, sign: int)
    requires k < |indices| && Indices(indices, |values|) && Distinct(Queue(values, indices, k, sign))
    ensures Queue(values, indices, k, sign)[0] == Slot(indices[k], sign * values[indices[k]])
    ensures Queue(values, indices, k, sign)[1..] == Queue(values, indices, k + 1, sign)
    ensures forall x :: k < x < |indices| ==> indices[x] != indices[k]
  {
    var q := Queue(values, indices, k, sign);
    forall x | k < x < |indices| ensures indices[x] != indices[k] {
      assert q[0].wallet != q[x - k].wallet;
    }
  }

  /** The believed values after one transfer: the receiver's need shrinks only if it is paid in full. */
  ghost function Paid(values: seq<int>, e: nat, d: nat): seq<int>
    requires e < |values| && d < |values|
  {
    if values[e] < -values[d] then values[e := 0] else values[e := values[e] + values[d]][d := 0]
  }

  lemma PaidQueues(values: seq<int>, excess: seq<nat>, deficit: seq<nat>, i: nat, j: nat)
    requires Indices(excess, |values|) && Indices(deficit, |values|) && Apart(excess, deficit)
    requires i < |excess| && j < |deficit|
    requires Fair(Queue(values, excess, i, 1), Queue(values, deficit, j, -1))
    ensures var senders, receivers := Queue(values, excess, i, 1), Queue(values, deficit, j, -1);
            var after := Paid(values, excess[i], deficit[j]);
            var i', j' := if after[excess[i]] == 0 then i + 1 else i, if after[deficit[j]] == 0 then j + 1 else j;
            && values[excess[i]] > 0 > values[deficit[j]]
            && Fair(Queue(after, excess, i', 1), Queue(after, deficit, j', -1))
            && (after[excess[i]] == 0 || after[deficit[j]] == 0)
            && Settle(senders, receivers)
            == [Transfer(excess[i], deficit[j],
                         if values[excess[i]] < -values[deficit[j]] then values[excess[i]] else -values[deficit[j]])]
               + Settle(Queue(after, excess, i', 1), Queue(after, deficit, j', -1))
  {
    var e, d := excess[i], deficit[j];
    var senders, receivers := Queue(values, excess, i, 1), Queue(values, deficit, j, -1);
    var after := Paid(values, e, d);
    QueueHead(values, excess, i, 1);
    QueueHead(values, deficit, j, -1);
    assert senders[0].left > 0 && receivers[0].left > 0;
    if values[e] < -values[d] {
      QueueFrame(values, excess, i + 1, 1, e, 0);
      QueueFrame(values, deficit, j, -1, e, 0);
    } else {
      var rest := values[e] + values[d];
      QueueFrame(values, excess, i + 1, 1, e, rest);
      QueueFrame(values[e := rest], excess, i, 1, d, 0);
      QueueFrame(values[e := rest], excess, i + 1, 1, d, 0);
      QueueFrame(values, deficit, j + 1, -1, e, rest);
      QueueFrame(values[e := rest], deficit, j + 1, -1, d, 0);
      SpendKeeps(senders, receivers[0].left);
      if rest != 0 {
        assert Queue(after, excess, i, 1) == Spend(senders, receivers[0].left);
      }
    }
  }

  lemma NoIndex(diff: seq<int>)
    ensures Queue(diff, [], 0, 1) == Surpluses(diff, 0) && Queue(diff, [], 0, -1) == Deficits(diff, 0)
  {
  }

  lemma NextIndex(diff: seq<int>, excess: seq<nat>, deficit: seq<nat>, i: nat)
    requires i < |diff| && Indices(excess, i) && Indices(deficit, i)
    requires Queue(diff, excess, 0, 1) == Surpluses(diff, i) && Queue(diff, deficit, 0, -1) == Deficits(diff, i)
    ensures Queue(diff, if diff[i] > 0 then excess + [i] else excess, 0, 1) == Surpluses(diff, i + 1)
    ensures Queue(diff, if diff[i] < 0 then deficit + [i] else deficit, 0, -1) == Deficits(diff, i + 1)
  {
    assert Queue(diff, excess + [i], 0, 1) == Queue(diff, excess, 0, 1) + [Slot(i, diff[i])];
    assert Queue(diff, deficit + [i], 0, -1) == Queue(diff, deficit, 0, -1) + [Slot(i, -diff[i])];
  }

  /** Step 1: one fresh cell per wallet, and the wallets above and below their targets. */
  method ComputeDifferences(initial: seq<int>, target: seq<int>)
    returns (difference: seq<BigInt>, excess: seq<nat>, deficit: seq<nat>)
    requires |initial| == |target|
    ensures Separate(difference) && fresh(difference) && Holds(difference, Difference(initial, target))
    ensures Indices(excess, |initial|) && Indices(deficit, |initial|) && Apart(excess, deficit)
    ensures Queue(Difference(initial, target), excess, 0, 1) == Surpluses(Difference(initial, target), |initial|)
    ensures Queue(Difference(initial, target), deficit, 0, -1) == Deficits(Difference(initial, target), |initial|)
  {
    hide Surpluses, Deficits, Queue;
    difference, excess, deficit := [], [], [];
    ghost var diff := Difference(initial, target);
    NoIndex(diff);
    var i := 0;
    while i < |initial|
      invariant 0 <= i <= |initial|
      invariant Separate(difference) && fresh(difference) && Holds(difference, diff[..i])
      invariant Indices(excess, i) && Indices(deficit, i) && Apart(excess, deficit)
      invariant Queue(diff, excess, 0, 1) == Surpluses(diff, i)
      invariant Queue(diff, deficit, 0, -1) == Deficits(diff, i)
    {
      NextIndex(diff, excess, deficit, i);
      var d := new BigInt(initial[i] - target[i]);
      difference := difference + [d];
      if d.v > 0 {
        excess := excess + [i];
      } else if d.v < 0 {
        deficit := deficit + [i];
      }
      i := i + 1;
    }
    assert diff[..i] == diff;
  }

  /** One turn of the loop: the transfer amount, and the two updates in place. */
  method PayOnce(difference: seq<BigInt>, e: nat, d: nat, ghost values: seq<int>) returns (amount: int)
    requires Separate(difference) && Holds(difference, values) && e < |difference| && d < |difference| && e != d
    requires difference[e].v > 0 > difference[d].v
    modifies difference[e], difference[d]
    ensures amount == if values[e] < -values[d] then values[e] else -values[d]
    ensures Holds(difference, Paid(values, e, d))
  {
    var surplus := difference[e];
    var need := new BigInt(-difference[d].v);
    var transferAmount := MinBig(surplus, need);
    amount := transferAmount.v;
    difference[e].Sub(difference[e], transferAmount);
    difference[d].Add(difference[d], transferAmount);
  }

  /** Step 2: the two pointers. */
  method MatchSurplusesAndDeficits(
    difference: seq<BigInt>, excess: seq<nat>, deficit: seq<nat>, ghost start: seq<int>)
    returns (transfers: seq<Transfer>)
    requires Separate(difference) && Holds(difference, start)
    requires Indices(excess, |start|) && Indices(deficit, |start|) && Apart(excess, deficit)
    requires Fair(Queue(start, excess, 0, 1), Queue(start, deficit, 0, -1))
    modifies difference
    ensures transfers == Settle(Queue(start, excess, 0, 1), Queue(start, deficit, 0, -1))
  {
    hide Settle, Queue, Fair, Paid;
    ghost var values := start;
    transfers := [];
    var i, j := 0, 0;
    while i < |excess| && j < |deficit|
      invariant 0 <= i <= |excess| && 0 <= j <= |deficit|
      invariant |values| == |start| && Holds(difference, values)
      invariant Fair(Queue(values, excess, i, 1), Queue(values, deficit, j, -1))
      invariant transfers + Settle(Queue(values, excess, i, 1), Queue(values, deficit, j, -1))
             == Settle(Queue(start, excess, 0, 1), Queue(start, deficit, 0, -1))
      decreases |excess| - i + |deficit| - j
    {
      PaidQueues(values, excess, deficit, i, j);
      var e, d := excess[i], deficit[j];
      var amount := PayOnce(difference, e, d, values);
      transfers := transfers + [Transfer(e, d, amount)];
      values := Paid(values, e, d);
      if difference[e].v == 0 {
        i := i + 1;
      }
      if difference[d].v == 0 {
        j := j + 1;
      }
    }
    NothingLeft(values, excess, deficit, i, j);
  }

  lemma NothingLeft(values: seq<int>, excess: seq<nat>, deficit: seq<nat>, i: nat, j: nat)
    requires Indices(excess, |values|) && Indices(deficit, |values|)
    requires i <= |excess| && j <= |deficit| && (i == |excess| || j == |deficit|)
    ensures Settle(Queue(values, excess, i, 1), Queue(values, deficit, j, -1)) == []
  {
  }

  /** Lengths that differ make the source panic. */
  method FindTransfers(initial: seq<int>, target: seq<int>) returns (transfers: seq<Transfer>)
    requires |initial| == |target|
    ensures transfers == Transfers(initial, target)
  {
    hide Settle;
    var difference, excess, deficit := ComputeDifferences(initial, target);
    SlotTotals(initial, target);
    transfers := MatchSurplusesAndDeficits(difference, excess, deficit, Difference(initial, target));
  }
}
