/** The accounting of the streaming contract: the validation and the rate derivation performed
    when a stream is created, the settlement performed when its recipient withdraws, and what
    follows from them for the money paid out. */
module Accounting {
  import opened Errors
  import opened State

  /** The start the stream actually gets: the block time when the caller leaves it as 0. */
  function EffectiveStart(startTime: u64, now: u64): u64 {
    if startTime == 0 then now else startTime
  }

  /** The owner and the recipient are given in validated form, and the recipient is not the
      administrative owner. */
  predicate PartiesAccepted(cfg: Config, api: Api, owner: string, recipient: string) {
    api(owner) == Some(owner) && api(recipient) == Some(recipient) && recipient != cfg.owner
  }

  /** Splitting a deposit of at least one unit per second of the window: the remainder
      is shorter than the window and the rate times the window plus the remainder is the
      deposit. */
  lemma SplitDeposit(amount: nat, duration: nat)
    requires 0 < duration <= amount
    ensures var last := amount % duration;
            var rate := (amount - last) / duration;
            last < duration && 1 <= rate <= amount && rate * duration + last == amount
  {
    var q, last := amount / duration, amount % duration;
    DivisionUnique(amount - last, duration, q, 0);
    if q == 0 {
      assert false;
    }
    MulLeft(1, duration, q);
  }

  /** Euclidean division has one quotient and remainder. */
  lemma DivisionUnique(x: int, d: int, q: int, m: int)
    requires 0 < d && 0 <= m < d && x == q * d + m
    ensures x / d == q && x % d == m
  {
    var q', m' := x / d, x % d;
    assert (q - q') * d == m' - m;
    if q > q' {
      MulLeft(1, q - q', d);
      assert false;
    } else if q < q' {
      MulLeft(1, q' - q, d);
      assert false;
    }
  }

  /** The validation and arithmetic of creating a stream funded by `owner` with `amount`,
      with `now` the block time. */
  function CreateTerms(cfg: Config, api: Api, owner: string, recipient: string, amount: u128,
                       startTime: u64, endTime: u64, now: u64): (r: Result<Stream, ContractError>)
    ensures api(owner).None? ==> r == Err(InvalidAddress)
    ensures api(owner).Some? && api(owner).value != owner ==> r == Err(InvalidOwner)
    ensures api(owner) == Some(owner) && api(recipient).None? ==> r == Err(InvalidAddress)
    ensures (api(owner) == Some(owner) && api(recipient).Some? &&
             (api(recipient).value != recipient || recipient == cfg.owner)) ==> r == Err(InvalidRecipient)
    ensures var start := EffectiveStart(startTime, now);
            PartiesAccepted(cfg, api, owner, recipient) ==>
              (r == Err(InvalidStartTime) <==> start > endTime || start < now)
    ensures var start := EffectiveStart(startTime, now);
            PartiesAccepted(cfg, api, owner, recipient) && now <= start <= endTime ==>
              (r == Err(InvalidDuration) <==> amount < endTime - start)
    ensures PartiesAccepted(cfg, api, owner, recipient) && now <= EffectiveStart(startTime, now) == endTime ==>
              r == Err(Arithmetic)
    ensures var start := EffectiveStart(startTime, now);
            r.Ok? <==> PartiesAccepted(cfg, api, owner, recipient) && now <= start < endTime &&
                       endTime - start <= amount
    ensures r.Ok? ==>
              var start := EffectiveStart(startTime, now);
              var s := r.value;
              ValidTerms(s) &&
              s.owner == owner && s.recipient == recipient && s.amount == amount &&
              s.claimedAmount == 0 && s.startTime == start && s.endTime == endTime &&
              s.lastAmount == amount % (endTime - start)
  {
    match api(owner)
    case None => Err(InvalidAddress)
    case Some(validatedOwner) =>
      if validatedOwner != owner then Err(InvalidOwner)
      else
        match api(recipient)
        case None => Err(InvalidAddress)
        case Some(validatedRecipient) =>
          if validatedRecipient != recipient then Err(InvalidRecipient)
          else if cfg.owner == recipient then Err(InvalidRecipient)
          else
            var start := EffectiveStart(startTime, now);
            if start > endTime then Err(InvalidStartTime)
            else if start < now then Err(InvalidStartTime)
            else
              var duration := endTime - start;
              if amount < duration then Err(InvalidDuration)
              else if duration == 0 then Err(Arithmetic)
              else
                var last := amount % duration;
                var realAmount := amount - last;
                SplitDeposit(amount, duration);
                var rate := realAmount / duration;
                Ok(Stream(validatedOwner, validatedRecipient, amount, last, 0, start, endTime, rate))
  }

  /** The linear part unlocked at time `t`, measured from the start and not capped at the end. */
  function Unlocked(s: Stream, t: int): int {
    if t <= s.startTime then 0 else (t - s.startTime) * s.ratePerSecond
  }

  /** What the recipient is entitled to in total at time `t` as the withdrawal code computes it:
      the linear part, plus the remainder once the end is reached. */
  function Vested(s: Stream, t: int): int {
    Unlocked(s, t) + (if s.startTime < t && s.endTime <= t then s.lastAmount else 0)
  }

  /** The stream after `due` more has been paid out. */
  function Claim(s: Stream, due: u128): Stream
    requires s.claimedAmount + due < U128_LIMIT
  {
    s.(claimedAmount := s.claimedAmount + due)
  }

  /** The precondition chain and the payment of a withdrawal by `caller` at block time `now`:
      the amount due, or the error or panic that ends the request. */
  function Settle(s: Stream, caller: Addr, now: u64): (r: Result<u128, ContractError>)
    ensures caller != s.recipient ==> r == Err(NotStreamRecipient)
    ensures caller == s.recipient && s.claimedAmount >= s.amount ==> r == Err(StreamFullyClaimed)
    ensures caller == s.recipient && s.claimedAmount < s.amount && now <= s.startTime ==>
              r == Err(StreamNotStarted)
    ensures caller == s.recipient && s.claimedAmount < s.amount && s.startTime < now ==>
              (r.Ok? <==> s.claimedAmount <= Unlocked(s, now) && Vested(s, now) < U128_LIMIT) &&
              (r.Err? ==> r.error == Arithmetic)
    ensures r.Ok? ==> s.claimedAmount + r.value == Vested(s, now)
  {
    if s.recipient != caller then Err(NotStreamRecipient)
    else if s.claimedAmount >= s.amount then Err(StreamFullyClaimed)
    else if s.startTime >= now then Err(StreamNotStarted)
    else
      var lastAmount := if s.endTime <= now then s.lastAmount else 0;
      var elapsed := now - s.startTime;
      var unlocked := elapsed * s.ratePerSecond;
      if unlocked >= U128_LIMIT then Err(Arithmetic)
      else if unlocked < s.claimedAmount then Err(Arithmetic)
      else if unlocked - s.claimedAmount + lastAmount >= U128_LIMIT then Err(Arithmetic)
      else
        var due := unlocked - s.claimedAmount + lastAmount;
        if s.claimedAmount + due >= U128_LIMIT then Err(Arithmetic)
        else Ok(due)
  }

  lemma MulLeft(a: int, b: int, c: int)
    requires a <= b && 0 <= c
    ensures a * c <= b * c
  {
    assert (b - a) * c >= 0;
  }

  /** Up to the end of the window the entitlement never exceeds the deposit, and at the end it
      is the whole deposit. */
  lemma VestedWithinDeposit(s: Stream, t: int)
    requires ValidTerms(s) && t <= s.endTime
    ensures Vested(s, t) <= s.amount
    ensures t == s.endTime ==> Vested(s, t) == s.amount
  {
    if s.startTime < t {
      MulLeft(t - s.startTime, s.endTime - s.startTime, s.ratePerSecond);
    }
  }

  /** The entitlement never decreases as time passes. */
  lemma VestedMonotone(s: Stream, t1: int, t2: int)
    requires ValidTerms(s) && t1 <= t2
    ensures Vested(s, t1) <= Vested(s, t2)
  {
    if s.startTime < t1 {
      MulLeft(t1 - s.startTime, t2 - s.startTime, s.ratePerSecond);
    }
  }

  /** Before the end each second adds exactly the rate, so the entitlement at `t` stays a full
      rate short of the deposit. */
  lemma VestedBeforeEnd(s: Stream, t: int)
    requires ValidTerms(s) && s.startTime <= t < s.endTime
    ensures Vested(s, t) == (t - s.startTime) * s.ratePerSecond
    ensures Vested(s, t) + s.ratePerSecond <= s.amount
  {
    MulLeft(t - s.startTime + 1, s.endTime - s.startTime, s.ratePerSecond);
  }

  /** Settlement pays exactly the delta: once the stream is settled up to `t1` (by any number
      of earlier withdrawals, or none when `t1` is the start), a withdrawal at a later `t2` up to
      the end succeeds and pays the entitlement gained since `t1`, which before the end is
      `rate * (t2 - t1)` and at the end adds the remainder once. */
  lemma SettleDelta(s: Stream, t1: int, t2: u64)
    requires ValidTerms(s)
    requires s.startTime <= t1 < t2 <= s.endTime
    requires s.claimedAmount == Vested(s, t1)
    ensures Settle(s, s.recipient, t2) == Ok(Vested(s, t2) - Vested(s, t1))
    ensures t2 < s.endTime ==> Settle(s, s.recipient, t2) == Ok(s.ratePerSecond * (t2 - t1))
    ensures t2 == s.endTime ==>
              Settle(s, s.recipient, t2) == Ok(s.ratePerSecond * (t2 - t1) + s.lastAmount)
  {
    VestedBeforeEnd(s, t1);
    VestedWithinDeposit(s, t2);
    MulLeft(t1 - s.startTime, t2 - s.startTime, s.ratePerSecond);
    assert s.ratePerSecond * (t2 - t1) ==
           (t2 - s.startTime) * s.ratePerSecond - (t1 - s.startTime) * s.ratePerSecond;
  }

  /** A withdrawal at exactly the end leaves the stream fully claimed, and every later
      withdrawal by its recipient is refused as fully claimed. */
  lemma SettledAtMaturity(s: Stream, due: u128, later: u64)
    requires ValidTerms(s)
    requires Settle(s, s.recipient, s.endTime) == Ok(due)
    ensures Claim(s, due).claimedAmount == s.amount
    ensures Settle(Claim(s, due), s.recipient, later) == Err(StreamFullyClaimed)
  {
    VestedWithinDeposit(s, s.endTime);
  }

  /** Replays withdrawals by `caller` at the given block times: the stream afterwards and the
      total paid. Refused withdrawals leave the stream as it was and pay nothing. */
  function Replay(s: Stream, caller: Addr, times: seq<u64>): (Stream, int)
    decreases |times|
  {
    if times == [] then (s, 0)
    else
      match Settle(s, caller, times[0])
      case Err(_) => Replay(s, caller, times[1..])
      case Ok(due) =>
        var (after, paid) := Replay(Claim(s, due), caller, times[1..]);
        (after, paid + due)
  }

  /** No double payment: withdrawals at non-decreasing times up to the end, starting from a
      stream settled up to `t0`, pay in total exactly what they add to the claimed amount, and
      the claimed amount never exceeds the deposit. */
  lemma {:induction false} NoDoublePayment(s: Stream, caller: Addr, times: seq<u64>, t0: int)
    requires ValidTerms(s) && t0 <= s.endTime && s.claimedAmount == Vested(s, t0)
    requires forall k :: 0 <= k < |times| ==> t0 <= times[k] <= s.endTime
    requires forall j, k :: 0 <= j < k < |times| ==> times[j] <= times[k]
    ensures Replay(s, caller, times).0.claimedAmount == s.claimedAmount + Replay(s, caller, times).1
    ensures Replay(s, caller, times).0.claimedAmount <= s.amount
    ensures ValidTerms(Replay(s, caller, times).0)
    decreases |times|
  {
    if times == [] {
      VestedWithinDeposit(s, t0);
    } else {
      match Settle(s, caller, times[0])
      case Err(_) =>
        NoDoublePayment(s, caller, times[1..], t0);
      case Ok(due) =>
        assert Vested(Claim(s, due), times[0]) == Vested(s, times[0]);
        NoDoublePayment(Claim(s, due), caller, times[1..], times[0]);
    }
  }

  /** A deposit of 1000 starting at the block time 1000 and ending at 1100 streams 10 per second
      with no remainder; half-way the recipient gets 500, and at the end the other 500. */
  lemma EvenDepositExample()
    ensures var cfg, api := Config("admin", "token"), (a: string) => Some(a);
            var r := CreateTerms(cfg, api, "alice", "bob", 1000, 0, 1100, 1000);
            r == Ok(Stream("alice", "bob", 1000, 0, 0, 1000, 1100, 10)) &&
            Settle(r.value, "bob", 1050) == Ok(500) &&
            Settle(Claim(r.value, 500), "bob", 1100) == Ok(500)
  {
  }

  /** A deposit of 1005 over 100 seconds streams 10 per second and keeps 5 back; a withdrawal
      before the end never includes the 5, one at the end includes it once, and the stream is
      then fully claimed. */
  lemma RemainderExample()
    ensures var cfg, api := Config("admin", "token"), (a: string) => Some(a);
            var r := CreateTerms(cfg, api, "alice", "bob", 1005, 2000, 2100, 1000);
            r == Ok(Stream("alice", "bob", 1005, 5, 0, 2000, 2100, 10)) &&
            Settle(r.value, "bob", 2099) == Ok(990) &&
            Settle(Claim(r.value, 990), "bob", 2100) == Ok(15) &&
            Settle(Claim(Claim(r.value, 990), 15), "bob", 2101) == Err(StreamFullyClaimed)
  {
  }

  /** A stream just created is settled up to time 0, so the no-double-payment lemma applies to
      it: any withdrawals at non-decreasing times up to its end pay out at most its deposit. */
  lemma CreatedStreamNeverOverpaid(cfg: Config, api: Api, owner: string, recipient: string, amount: u128,
                                   startTime: u64, endTime: u64, now: u64, caller: Addr, times: seq<u64>)
    requires CreateTerms(cfg, api, owner, recipient, amount, startTime, endTime, now).Ok?
    requires forall k :: 0 <= k < |times| ==> times[k] <= endTime
    requires forall j, k :: 0 <= j < k < |times| ==> times[j] <= times[k]
    ensures var s := CreateTerms(cfg, api, owner, recipient, amount, startTime, endTime, now).value;
            var (after, paid) := Replay(s, caller, times);
            after.claimedAmount == paid && paid <= amount
  {
    var s := CreateTerms(cfg, api, owner, recipient, amount, startTime, endTime, now).value;
    assert s.claimedAmount == Vested(s, 0);
    NoDoublePayment(s, caller, times, 0);
  }

  /** As written, a withdrawal after the end is not capped at the end: on top of the whole
      deposit it pays `rate` for every second past the end. */
  lemma OverpayAfterMaturity(s: Stream, caller: Addr, now: u64, due: u128)
    requires ValidTerms(s) && s.endTime < now
    requires Settle(s, caller, now) == Ok(due)
    ensures s.claimedAmount + due == s.amount + s.ratePerSecond * (now - s.endTime)
    ensures s.claimedAmount + due > s.amount
  {
    assert (now - s.startTime) * s.ratePerSecond ==
           (s.endTime - s.startTime) * s.ratePerSecond + (now - s.endTime) * s.ratePerSecond;
    MulLeft(1, now - s.endTime, s.ratePerSecond);
  }

  /** A deposit of 1000 over 100 seconds withdrawn in one go 100 seconds after the end pays 2000. */
  lemma OverpayExample()
    ensures var s := Stream("alice", "bob", 1000, 0, 0, 100, 200, 10);
            ValidTerms(s) && Settle(s, "bob", 300) == Ok(2000)
  {
  }

  /** Settlement with the block time capped at the end of the window: the evidently intended
      payment, which releases the rest of the deposit at maturity and never more. The one change
      to the code as written is that cap; for a stream with valid terms, capping does not change
      which withdrawals are refused as not started. */
  function SettleClamped(s: Stream, caller: Addr, now: u64): (r: Result<u128, ContractError>)
    ensures r.Ok? ==> s.claimedAmount + r.value ==
                      Unlocked(s, if now < s.endTime then now else s.endTime) +
                      (if s.endTime <= now then s.lastAmount else 0)
  {
    Settle(s, caller, if now < s.endTime then now else s.endTime)
  }

  /** The capped settlement never pays beyond the deposit, pays the whole rest of it at or after
      the end, and agrees with the code as written up to the end. */
  lemma SettleClampedWithinDeposit(s: Stream, caller: Addr, now: u64, due: u128)
    requires ValidTerms(s)
    requires SettleClamped(s, caller, now) == Ok(due)
    ensures s.claimedAmount + due <= s.amount
    ensures s.endTime <= now ==> s.claimedAmount + due == s.amount
    ensures now <= s.endTime ==> Settle(s, caller, now) == Ok(due)
  {
    VestedWithinDeposit(s, if now < s.endTime then now else s.endTime);
  }
}
