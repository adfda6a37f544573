/** The message rate of a client connection: a counter, and a timer that resets it. */
module RateLimit {

  /** `rateTime` is when the counter was last reset, or when the connection was opened. */
  datatype Meter = Meter(rateTime: real, counter: int)

  datatype Event = Reset(at: real) | Message(at: real)

  /** What the limit has grown to at this time. */
  function Allowance(limit: nat, meter: Meter, now: real): real {
    if now - meter.rateTime >= 1.0 then (limit as real) * (now - meter.rateTime) else limit as real
  }

  function Step(meter: Meter, e: Event): Meter {
    match e
    case Reset(at) => Meter(at, 0)
    case Message(_) => meter.(counter := meter.counter + 1)
  }

  /** The message is let through. */
  predicate Passes(limit: nat, meter: Meter, at: real) {
    (meter.counter + 1) as real <= Allowance(limit, meter, at)
  }

  // ----- Runs -----

  /** Times do not decrease from `now` on, and resets are at least a second apart; `reset` tells that the meter's
      time is that of a reset. */
  predicate Timely(es: seq<Event>, now: real, meter: Meter, reset: bool)
    decreases |es|
  {
    es == [] ||
    (now <= es[0].at && (es[0].Reset? && reset ==> es[0].at - meter.rateTime >= 1.0)
     && Timely(es[1..], es[0].at, Step(meter, es[0]), reset || es[0].Reset?))
  }

  /** The number of messages that pass. */
  function Passed(limit: nat, meter: Meter, es: seq<Event>): nat
    decreases |es|
  {
    if es == [] then 0 else
    (if es[0].Message? && Passes(limit, meter, es[0].at) then 1 else 0) + Passed(limit, Step(meter, es[0]), es[1..])
  }

  function End(es: seq<Event>, now: real): real {
    if es == [] then now else es[|es| - 1].at
  }

  // ----- Bound -----

  /** What the current window, and those before it, may have let through. */
  function Share(now: real, meter: Meter): real {
    if now - meter.rateTime >= 1.0 then now - meter.rateTime else 1.0
  }

  function Before(meter: Meter, reset: bool): real {
    if reset then meter.rateTime + 1.0 else 0.0
  }

  /** So many messages are allowed in so many seconds. */
  function Quota(limit: nat, seconds: real): real {
    (limit as real) * seconds
  }

  lemma QuotaGrows(limit: nat, x: real, y: real)
    requires x <= y
    ensures Quota(limit, x) <= Quota(limit, y)
  {
  }

  lemma QuotaAdds(limit: nat, x: real, y: real)
    ensures Quota(limit, x + y) == Quota(limit, x) + Quota(limit, y)
  {
  }

  lemma AllowanceIsShare(limit: nat, meter: Meter, now: real)
    ensures Allowance(limit, meter, now) == Quota(limit, Share(now, meter))
  {
  }

  /** `earlier` messages have passed before the current window and `inside` in it. */
  ghost predicate Accounted(limit: nat, meter: Meter, now: real, reset: bool, earlier: nat, inside: nat) {
    && 0.0 <= meter.rateTime <= now && (!reset ==> meter.rateTime == 0.0)
    && earlier as real <= Quota(limit, Before(meter, reset))
    && inside <= meter.counter && inside as real <= Quota(limit, Share(now, meter))
  }

  lemma AccountedSoFar(limit: nat, meter: Meter, now: real, reset: bool, earlier: nat, inside: nat, room: real)
    requires Accounted(limit, meter, now, reset, earlier, inside) && Before(meter, reset) + Share(now, meter) <= room
    ensures (earlier + inside) as real <= Quota(limit, room)
  {
    QuotaAdds(limit, Before(meter, reset), Share(now, meter));
    QuotaGrows(limit, Before(meter, reset) + Share(now, meter), room);
  }

  lemma LaterIsAccounted(limit: nat, meter: Meter, now: real, at: real, reset: bool, earlier: nat, inside: nat)
    requires Accounted(limit, meter, now, reset, earlier, inside) && now <= at
    ensures Accounted(limit, meter, at, reset, earlier, inside)
  {
    QuotaGrows(limit, Share(now, meter), Share(at, meter));
  }

  lemma ResetIsAccounted(limit: nat, meter: Meter, at: real, reset: bool, earlier: nat, inside: nat)
    requires Accounted(limit, meter, at, reset, earlier, inside) && (reset ==> at - meter.rateTime >= 1.0)
    ensures Accounted(limit, Meter(at, 0), at, true, earlier + inside, 0)
  {
    AccountedSoFar(limit, meter, at, reset, earlier, inside, at + 1.0);
  }

  lemma MessageIsAccounted(limit: nat, meter: Meter, at: real, reset: bool, earlier: nat, inside: nat)
    requires Accounted(limit, meter, at, reset, earlier, inside)
    ensures Accounted(limit, Step(meter, Message(at)), at, reset, earlier,
                      inside + if Passes(limit, meter, at) then 1 else 0)
  {
    AllowanceIsShare(limit, meter, at);
    assert Share(at, Step(meter, Message(at))) == Share(at, meter);
    assert Passes(limit, meter, at) ==> (inside + 1) as real <= (meter.counter + 1) as real;
  }

  /** What one event does to the account. */
  lemma EventIsAccounted(limit: nat, meter: Meter, e: Event, now: real, reset: bool, earlier: nat, inside: nat)
    returns (before: nat, within: nat)
    requires Accounted(limit, meter, now, reset, earlier, inside) && now <= e.at
    requires e.Reset? && reset ==> e.at - meter.rateTime >= 1.0
    ensures Accounted(limit, Step(meter, e), e.at, reset || e.Reset?, before, within)
    ensures before + within == earlier + inside + if e.Message? && Passes(limit, meter, e.at) then 1 else 0
  {
    LaterIsAccounted(limit, meter, now, e.at, reset, earlier, inside);
    match e
    case Reset(at) =>
      ResetIsAccounted(limit, meter, at, reset, earlier, inside);
      before, within := earlier + inside, 0;
    case Message(at) =>
      MessageIsAccounted(limit, meter, at, reset, earlier, inside);
      before, within := earlier, inside + if Passes(limit, meter, at) then 1 else 0;
  }

  /** The account at the end of the run. */
  lemma {:induction false} RunIsAccounted(limit: nat, meter: Meter, es: seq<Event>, now: real, reset: bool,
                                          earlier: nat, inside: nat)
    returns (last: Meter, everReset: bool, before: nat, within: nat)
    requires Timely(es, now, meter, reset) && Accounted(limit, meter, now, reset, earlier, inside)
    ensures Accounted(limit, last, End(es, now), everReset, before, within)
    ensures before + within == earlier + inside + Passed(limit, meter, es)
    decreases |es|
  {
    if es == [] {
      last, everReset, before, within := meter, reset, earlier, inside;
    } else {
      var e, rest := es[0], es[1..];
      before, within := EventIsAccounted(limit, meter, e, now, reset, earlier, inside);
      last, everReset, before, within :=
        RunIsAccounted(limit, Step(meter, e), rest, e.at, reset || e.Reset?, before, within);
      assert End(rest, e.at) == End(es, now);
    }
  }

  /** However messages and resets arrive, as long as resets are at least a second apart, a connection opened at time
      0 passes at most `limit` * (T + 2) messages in its first T seconds. */
  lemma RateBound(limit: nat, es: seq<Event>)
    requires Timely(es, 0.0, Meter(0.0, 0), false)
    ensures Passed(limit, Meter(0.0, 0), es) as real <= Quota(limit, End(es, 0.0) + 2.0)
  {
    var last, everReset, before, within := RunIsAccounted(limit, Meter(0.0, 0), es, 0.0, false, 0, 0);
    AccountedSoFar(limit, last, End(es, 0.0), everReset, before, within, End(es, 0.0) + 2.0);
  }

  // ----- The bound is met -----

  function Burst(n: nat, at: real): seq<Event> {
    seq(n, i => Message(at))
  }

  lemma {:induction false} BurstPasses(limit: nat, meter: Meter, n: nat, at: real, rest: seq<Event>, reset: bool)
    requires meter.rateTime == at && 0 <= meter.counter && meter.counter + n <= limit
    ensures Passed(limit, meter, Burst(n, at) + rest) == n + Passed(limit, meter.(counter := meter.counter + n), rest)
    ensures Timely(rest, at, meter.(counter := meter.counter + n), reset) ==>
      Timely(Burst(n, at) + rest, at, meter, reset)
    decreases n
  {
    var es := Burst(n, at) + rest;
    if n == 0 {
      assert es == rest;
    } else {
      assert es[1..] == Burst(n - 1, at) + rest;
      BurstPasses(limit, Step(meter, es[0]), n - 1, at, rest, reset);
    }
  }

  /** A reset and a burst at each of the seconds `from` to T. */
  function Rounds(limit: nat, from: nat, T: nat): seq<Event>
    requires from <= T + 1
    decreases T + 1 - from
  {
    if from == T + 1 then [] else
    [Reset(from as real)] + (Burst(limit, from as real) + Rounds(limit, from + 1, T))
  }

  /** What the rounds let through, after a meter that was reset a second ago or never. */
  lemma {:induction false} RoundsPass(limit: nat, meter: Meter, now: real, from: nat, T: nat, reset: bool)
    requires from <= T + 1 && now <= from as real && (reset ==> from as real - meter.rateTime >= 1.0)
    ensures Timely(Rounds(limit, from, T), now, meter, reset)
    ensures Passed(limit, meter, Rounds(limit, from, T)) == limit * (T + 1 - from)
    decreases T + 1 - from
  {
    if from <= T {
      var at, after := from as real, Rounds(limit, from + 1, T);
      var next, es := Meter(at, 0), Rounds(limit, from, T);
      assert es[1..] == Burst(limit, at) + after;
      RoundsPass(limit, next.(counter := limit), at, from + 1, T, true);
      BurstPasses(limit, next, limit, at, after, true);
      assert limit + limit * (T - from) == limit * (T + 1 - from);
    }
  }

  lemma {:induction false} RoundsEnd(limit: nat, from: nat, T: nat, now: real)
    requires from <= T
    ensures End(Rounds(limit, from, T), now) == T as real
    decreases T - from
  {
    var es, after := Rounds(limit, from, T), Rounds(limit, from + 1, T);
    if from < T {
      RoundsEnd(limit, from + 1, T, now);
      assert after != [] && es[|es| - 1] == after[|after| - 1];
    } else {
      assert after == [];
      assert es == [Reset(T as real)] + Burst(limit, T as real);
    }
  }

  /** For every whole number of seconds the bound is reached: a burst when the connection opens, and a reset with
      another burst at each second from then on. */
  lemma RateBoundIsMet(limit: nat, T: nat)
    ensures var es := Burst(limit, 0.0) + Rounds(limit, 0, T);
      && Timely(es, 0.0, Meter(0.0, 0), false) && End(es, 0.0) == T as real
      && Passed(limit, Meter(0.0, 0), es) as real == Quota(limit, T as real + 2.0)
  {
    var rest := Rounds(limit, 0, T);
    RoundsPass(limit, Meter(0.0, limit), 0.0, 0, T, false);
    BurstPasses(limit, Meter(0.0, 0), limit, 0.0, rest, false);
    RoundsEnd(limit, 0, T, 0.0);
    var es := Burst(limit, 0.0) + rest;
    assert es[|es| - 1] == rest[|rest| - 1];
    assert limit + limit * (T + 1) == limit * (T + 2);
    Whole(limit, T + 2);
  }

  lemma Whole(limit: nat, n: nat)
    ensures (limit * n) as real == Quota(limit, n as real)
  {
  }

  // ----- The exact number in one window -----

  /** So many more messages may pass at this time. */
  predicate Fits(limit: nat, meter: Meter, at: real, n: nat) {
    var elapsed := at - meter.rateTime;
    (meter.counter + n) as real <= (limit as real) * (if elapsed >= 1.0 then elapsed else 1.0)
  }

  /** Of n messages that arrive at once, exactly as many pass as the limit for the time since the last reset leaves
      room for: all n if and only if they fit. */
  lemma {:induction false} BurstFitsIff(limit: nat, meter: Meter, n: nat, at: real)
    requires meter.counter >= 0
    ensures Passed(limit, meter, Burst(n, at)) == n <==> n == 0 || Fits(limit, meter, at, n)
    ensures Passed(limit, meter, Burst(n, at)) <= n
    decreases n
  {
    if n > 0 {
      var es := Burst(n, at);
      assert es[1..] == Burst(n - 1, at);
      var next := Step(meter, es[0]);
      BurstFitsIff(limit, next, n - 1, at);
      assert n > 1 ==> (Fits(limit, next, at, n - 1) <==> Fits(limit, meter, at, n));
    }
  }
}
