/** What a run of the retry loop does that others can see, and the figures that claims about runs
    are stated in. */
module RunHistory {
  import opened Options

  type Hash = nat

  /** Prices are exact reals; price is the fee cap. */
  datatype Tx = Tx(hash: Hash, nonce: nat, price: real, tip: real, gas: nat)

  datatype GasBounds = GasBounds(
    extraGas: nat, extraPrice: real, extraTip: real,
    maxPrice: real, maxTip: real, priceFactor: real, tipFactor: real)

  function BumpedPrice(gas: GasBounds, tx: Tx): real { tx.price * gas.priceFactor }

  function BumpedTip(gas: GasBounds, tx: Tx): real { tx.tip * gas.tipFactor }

  predicate WithinLimits(gas: GasBounds, tx: Tx) {
    && (gas.maxPrice > 0.0 ==> BumpedPrice(gas, tx) <= gas.maxPrice)
    && (gas.maxTip > 0.0 ==> BumpedTip(gas, tx) <= gas.maxTip)
  }

  datatype Verdict =
    | NoVerdict | InsufficientFund | ReplacementUnderpriced | NonceGap | NonceIsLow
    | GasLimitTooLow | TxIsKnown | SyncTimedOut | OtherVerdict

  /** What a run does that others can see, oldest first. A transaction is sent when it
      is handed to a broadcaster, whatever comes of it. A release is live if the run tracks or has
      sent a transaction with that nonce. */
  datatype Event =
    | Acquired(n: nat)
    | Released(n: nat, live: bool)
    | Resynced
    | Registered(n: nat)
    | Built(tx: Tx)
    | Signed(tx: Tx)
    | Sent(tx: Tx)
    | Bumped(tx: Tx)
    | Rejected(verdict: Verdict, foreign: bool)
    | KeptWaiting

  datatype History = Start | Then(before: History, last: Event)

  function Bumps(log: History): nat {
    match log
    case Start => 0
    case Then(before, e) => Bumps(before) + if e.Bumped? then 1 else 0
  }

  /** Rounds that cost neither an attempt nor a bump: a known transaction, a foreign transaction
      at the nonce, a nonce gap, a slow transaction that blocks nobody. */
  predicate IsFree(e: Event) {
    e.KeptWaiting? || (e.Rejected? && (e.verdict.TxIsKnown? || e.verdict.NonceGap? || e.foreign))
  }

  function FreeRounds(log: History): nat {
    match log
    case Start => 0
    case Then(before, e) => FreeRounds(before) + if IsFree(e) then 1 else 0
  }

  /** Verdicts after which a run may take another nonce. */
  predicate Resets(e: Event) {
    e.Rejected? && (e.verdict.NonceGap? || e.verdict.NonceIsLow? || e.foreign)
  }

  function NonceResets(log: History): nat {
    match log
    case Start => 0
    case Then(before, e) => NonceResets(before) + if Resets(e) then 1 else 0
  }

  predicate SignedIn(log: History, tx: Tx) {
    log.Then? && (log.last == Signed(tx) || SignedIn(log.before, tx))
  }

  function SignedNonces(log: History): set<nat> {
    match log
    case Start => {}
    case Then(before, e) => if e.Signed? then SignedNonces(before) + {e.tx.nonce} else SignedNonces(before)
  }

  function SentNonces(log: History): set<nat> {
    match log
    case Start => {}
    case Then(before, e) => if e.Sent? then SentNonces(before) + {e.tx.nonce} else SentNonces(before)
  }

  function Held(log: History): set<nat> {
    match log
    case Start => {}
    case Then(before, e) =>
      if e.Acquired? then Held(before) + {e.n}
      else if e.Released? then Held(before) - {e.n}
      else Held(before)
  }

  /** Releases of a nonce that the run neither held nor had in use at that moment. */
  function OverReleases(log: History): nat {
    match log
    case Start => 0
    case Then(before, e) => OverReleases(before) + if e.Released? && !e.live && e.n !in Held(before) then 1 else 0
  }

  /** Releases of a nonce for which a transaction may be on its way. */
  function LiveReleases(log: History): nat {
    match log
    case Start => 0
    case Then(before, e) => LiveReleases(before) + if e.Released? && e.live then 1 else 0
  }

  /** The transaction that the last bump started from. */
  function LastBump(log: History): Option<Tx> {
    match log
    case Start => None
    case Then(before, e) => if e.Bumped? then Some(e.tx) else LastBump(before)
  }

  /** What is owed to a transaction built while `bumped` is the last bump: never a tip above the
      price; and if the bumped one had a price at all, growth by the factors, within the limits
      plus the extras. */
  predicate RightlyPriced(gas: GasBounds, bumped: Option<Tx>, tx: Tx) {
    && tx.tip <= tx.price
    && (bumped.Some? && bumped.value.price > 0.0 && gas.priceFactor > 0.0 ==>
          && (gas.extraPrice >= 0.0 ==> BumpedPrice(gas, bumped.value) <= tx.price)
          && (gas.extraTip >= 0.0 ==> BumpedTip(gas, bumped.value) <= tx.tip)
          && (gas.maxTip > 0.0 ==> tx.tip <= gas.maxTip + gas.extraTip)
          && (gas.maxPrice > 0.0 && gas.maxTip > 0.0 ==>
                tx.price <= gas.maxPrice + gas.extraPrice || tx.price <= gas.maxTip + gas.extraTip))
  }

  predicate AllRightlyPriced(gas: GasBounds, log: History) {
    log.Start? || (
      && AllRightlyPriced(gas, log.before)
      && (log.last.Built? ==> RightlyPriced(gas, LastBump(log.before), log.last.tx)))
  }

  /** One more event, with what it does to each figure. */
  function Append(log: History, e: Event): (after: History)
    ensures after == Then(log, e)
    ensures Bumps(after) == Bumps(log) + if e.Bumped? then 1 else 0
    ensures FreeRounds(after) == FreeRounds(log) + if IsFree(e) then 1 else 0
    ensures NonceResets(after) == NonceResets(log) + if Resets(e) then 1 else 0
    ensures SignedNonces(after) == if e.Signed? then SignedNonces(log) + {e.tx.nonce} else SignedNonces(log)
    ensures SentNonces(after) == if e.Sent? then SentNonces(log) + {e.tx.nonce} else SentNonces(log)
    ensures Held(after) ==
            if e.Acquired? then Held(log) + {e.n} else if e.Released? then Held(log) - {e.n} else Held(log)
    ensures OverReleases(after) == OverReleases(log) + if e.Released? && !e.live && e.n !in Held(log) then 1 else 0
    ensures LiveReleases(after) == LiveReleases(log) + if e.Released? && e.live then 1 else 0
    ensures LastBump(after) == if e.Bumped? then Some(e.tx) else LastBump(log)
    ensures forall gas :: AllRightlyPriced(gas, after) <==>
              AllRightlyPriced(gas, log) && (e.Built? ==> RightlyPriced(gas, LastBump(log), e.tx))
    ensures forall tx :: SignedIn(after, tx) <==> e == Signed(tx) || SignedIn(log, tx)
  {
    Then(log, e)
  }
}
