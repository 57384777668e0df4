/** The monitoring goroutine: it selects among cancellation, the node monitor's channel and the
    slow timer, and reports one status. */
module TxMonitor {
  import opened Options

  datatype Receipt = Receipt(id: nat, failed: bool)

  datatype TxStatus =
    | Mined(receipt: Receipt)
    | Reverted(receipt: Receipt)
    | Lost
    | Slow
    | Cancelled
    | Unknown

  /** What can become ready in the select. */
  datatype Signal =
    | ContextDone
    | SaysDone(receipt: Receipt)
    | SaysReverted(receipt: Receipt)
    | SaysLost
    | SaysOther
    | ChannelClosed
    | TimerFired

  predicate FromMonitor(s: Signal) {
    !s.ContextDone? && !s.TimerFired?
  }

  predicate NonTerminal(s: Signal) {
    s.SaysOther? || s.ChannelClosed?
  }

  /** A nil channel blocks for ever, so its signals are never selected. */
  predicate Ready(listening: bool, armed: bool, s: Signal) {
    (FromMonitor(s) ==> listening) && (s.TimerFired? ==> armed)
  }

  /** The status that the goroutine sends at a signal, if it sends one. */
  function Emits(s: Signal): Option<TxStatus> {
    match s
    case ContextDone => Some(Cancelled)
    case SaysDone(receipt) => Some(Mined(receipt))
    case SaysReverted(receipt) => Some(Reverted(receipt))
    case SaysLost => Some(Lost)
    case SaysOther | ChannelClosed => None
    case TimerFired => Some(Slow)
  }

  function WatchFrom(listening: bool, armed: bool, signals: seq<Signal>): Option<TxStatus>
    decreases |signals|
  {
    if signals == [] then None
    else if !Ready(listening, armed, signals[0]) then WatchFrom(listening, armed, signals[1..])
    else if NonTerminal(signals[0]) then WatchFrom(false, true, signals[1..])
    else Emits(signals[0])
  }

  /** None: nothing has been sent yet and the reader still waits. */
  function Watch(signals: seq<Signal>): Option<TxStatus> {
    WatchFrom(true, false, signals)
  }

  method MonitorTxContext(signals: seq<Signal>) returns (statusChan: seq<TxStatus>)
    ensures |statusChan| <= 1
    ensures Watch(signals) == if statusChan == [] then None else Some(statusChan[0])
  {
    statusChan := [];
    var listening, armed, k := true, false, 0;
    while k < |signals|
      invariant 0 <= k <= |signals| && statusChan == []
      invariant WatchFrom(listening, armed, signals[k..]) == Watch(signals)
    {
      var s := signals[k];
      assert signals[k..][1..] == signals[k + 1..];
      k := k + 1;
      if !Ready(listening, armed, s) {
        continue;
      }
      match s
      case ContextDone => return [Cancelled];
      case SaysDone(receipt) => return [Mined(receipt)];
      case SaysReverted(receipt) => return [Reverted(receipt)];
      case SaysLost => return [Lost];
      case SaysOther => listening, armed := false, true;
      case ChannelClosed => listening, armed := false, true;
      case TimerFired => return [Slow];
    }
  }

  /** The first monitor signal of a run decides which signals still count. */
  predicate Before(signals: seq<Signal>, k: nat)
    requires k <= |signals|
  {
    forall i :: 0 <= i < k ==> signals[i].TimerFired?
  }

  /** Once armed, everything the node monitor still says is ignored. */
  predicate FirstLive(signals: seq<Signal>, k: int) {
    0 <= k < |signals| && !FromMonitor(signals[k]) && forall i :: 0 <= i < k ==> FromMonitor(signals[i])
  }

  lemma {:induction false} ArmedWatch(signals: seq<Signal>)
    ensures WatchFrom(false, true, signals).None? <==> forall i :: 0 <= i < |signals| ==> FromMonitor(signals[i])
    ensures forall k :: FirstLive(signals, k) ==>
              WatchFrom(false, true, signals) == Some(if signals[k].TimerFired? then Slow else Cancelled)
    decreases |signals|
  {
    if signals == [] {
    } else {
      var rest := signals[1..];
      ArmedWatch(rest);
      if FromMonitor(signals[0]) {
        assert forall i :: 0 <= i < |rest| ==> rest[i] == signals[i + 1];
        assert forall i :: 0 < i < |signals| ==> signals[i] == rest[i - 1];
        forall k | FirstLive(signals, k) ensures FirstLive(rest, k - 1) {
        }
      }
    }
  }

  lemma {:induction false} FindLive(signals: seq<Signal>) returns (k: nat)
    requires WatchFrom(false, true, signals).Some?
    ensures FirstLive(signals, k)
    decreases |signals|
  {
    if FromMonitor(signals[0]) {
      var rest := FindLive(signals[1..]);
      k := rest + 1;
    } else {
      k := 0;
    }
  }

  /** The status sent, over every order of signals: before the monitor has answered once, timer
      signals do not exist; its first answer, if terminal, is the status; if not, only the timer
      and the context can still end the wait. */
  lemma {:induction false} WatchByFirstAnswer(signals: seq<Signal>, k: nat)
    requires k < |signals| && Before(signals, k) && !signals[k].TimerFired?
    ensures match signals[k]
            case ContextDone => Watch(signals) == Some(Cancelled)
            case SaysDone(receipt) => Watch(signals) == Some(Mined(receipt))
            case SaysReverted(receipt) => Watch(signals) == Some(Reverted(receipt))
            case SaysLost => Watch(signals) == Some(Lost)
            case SaysOther | ChannelClosed => Watch(signals) == WatchFrom(false, true, signals[k + 1..])
            case TimerFired => true
    decreases k
  {
    if k == 0 {
    } else {
      assert signals[1..][k - 1] == signals[k];
      assert signals[1..][k..] == signals[k + 1..];
      WatchByFirstAnswer(signals[1..], k - 1);
    }
  }

  lemma {:induction false} OnlyTimersMeansSilence(signals: seq<Signal>)
    requires Before(signals, |signals|)
    ensures Watch(signals) == None
    decreases |signals|
  {
    if signals == [] {
    } else {
      OnlyTimersMeansSilence(signals[1..]);
    }
  }

  /** Slow is never sent before a first non-terminal answer, and after one nothing but slow or
      cancelled is. The loop's branch for an unknown status is therefore dead. */
  lemma WatchStatuses(signals: seq<Signal>)
    ensures Watch(signals) != Some(Unknown)
    ensures Watch(signals) == Some(Slow) ==>
              exists j, k ::
                0 <= j < k < |signals| && Before(signals, j) && NonTerminal(signals[j]) && signals[k].TimerFired?
    ensures forall j :: 0 <= j < |signals| && Before(signals, j) && NonTerminal(signals[j]) && Watch(signals).Some?
              ==> Watch(signals).value.Slow? || Watch(signals).value.Cancelled?
  {
    if Before(signals, |signals|) {
      OnlyTimersMeansSilence(signals);
    } else {
      var k := FirstAnswer(signals);
      WatchByFirstAnswer(signals, k);
      var rest := signals[k + 1..];
      ArmedWatch(rest);
      if NonTerminal(signals[k]) && Watch(signals).Some? {
        var t := FindLive(rest);
        assert rest[t] == signals[k + 1 + t];
      }
    }
  }

  /** A status has been signalled: nobody hears of a cancellation, a loss or a receipt that was not
      there. */
  lemma WatchIsSignalled(signals: seq<Signal>)
    ensures Watch(signals) == Some(Cancelled) ==> ContextDone in signals
    ensures Watch(signals) == Some(Lost) ==> SaysLost in signals
    ensures Watch(signals) == Some(Slow) ==> TimerFired in signals
    ensures forall receipt :: Watch(signals) == Some(Mined(receipt)) ==> SaysDone(receipt) in signals
    ensures forall receipt :: Watch(signals) == Some(Reverted(receipt)) ==> SaysReverted(receipt) in signals
  {
    if Before(signals, |signals|) {
      OnlyTimersMeansSilence(signals);
    } else {
      var k := FirstAnswer(signals);
      WatchByFirstAnswer(signals, k);
      var rest := signals[k + 1..];
      ArmedWatch(rest);
      if NonTerminal(signals[k]) && Watch(signals).Some? {
        var t := FindLive(rest);
        assert rest[t] == signals[k + 1 + t];
      }
    }
  }

  lemma {:induction false} FirstAnswer(signals: seq<Signal>) returns (k: nat)
    requires !Before(signals, |signals|)
    ensures k < |signals| && Before(signals, k) && !signals[k].TimerFired?
    decreases |signals|
  {
    if !signals[0].TimerFired? {
      k := 0;
    } else {
      var rest := FirstAnswer(signals[1..]);
      k := rest + 1;
    }
  }
}
