/** How the load simulator paces its jobs: ten batches a second that add up to the rate
    (internal/simulation/simulation.go). */
module Pacing {
  import opened Common

  const BATCHES_PER_SECOND := 10

  function BatchSize(rate: nat, batch: nat): nat {
    rate / BATCHES_PER_SECOND + if batch % BATCHES_PER_SECOND < rate % BATCHES_PER_SECOND then 1 else 0
  }

  /** How many jobs the first n batches have room for. */
  function Room(rate: nat, n: nat): nat {
    if n == 0 then 0 else Room(rate, n - 1) + BatchSize(rate, n - 1)
  }

  /** The sum of the batch sizes in closed form: whole seconds, then the batches of the last one. */
  lemma {:induction false} RoomInClosedForm(rate: nat, n: nat)
    ensures Room(rate, n) == (n / 10) * rate + (n % 10) * (rate / 10) + Min(n % 10, rate % 10)
  {
    if n > 0 {
      RoomInClosedForm(rate, n - 1);
      NextTenth(n - 1);
      OneMoreBatch((n - 1) / 10, (n - 1) % 10, rate);
      assert BatchSize(rate, n - 1) == rate / 10 + if (n - 1) % 10 < rate % 10 then 1 else 0;
      hide BatchSize;
    }
  }

  /** Counting on from n, in tens and ones. */
  lemma NextTenth(n: nat)
    ensures if n % 10 < 9 then (n + 1) / 10 == n / 10 && (n + 1) % 10 == n % 10 + 1
            else (n + 1) / 10 == n / 10 + 1 && (n + 1) % 10 == 0
  {
  }

  /** The closed form, q seconds and m batches on, grows by one batch. */
  lemma OneMoreBatch(q: nat, m: nat, rate: nat)
    requires m < 10
    ensures var now := q * rate + m * (rate / 10) + Min(m, rate % 10) + rate / 10 + (if m < rate % 10 then 1 else 0);
            now == if m < 9 then q * rate + (m + 1) * (rate / 10) + Min(m + 1, rate % 10)
                   else (q + 1) * rate + 0 * (rate / 10) + Min(0, rate % 10)
  {
    var tens, ones := rate / 10, rate % 10;
    assert rate == 10 * tens + ones;
    assert (m + 1) * tens == m * tens + tens && (q + 1) * rate == q * rate + rate;
  }

  /** Ten times the excess of m batches over their fair share. */
  lemma ExcessWithinASecond(m: nat, ones: nat)
    requires m < 10 && ones < 10
    ensures 0 <= 10 * Min(m, ones) - m * ones <= 25
  {
    if m <= ones {
      assert m * (10 - ones) == 10 * m - m * ones;
      Product(m, 10 - ones);
    } else {
      assert ones * (10 - m) == 10 * ones - m * ones;
      Product(ones, 10 - m);
    }
  }

  lemma Product(a: nat, b: nat)
    requires a + b <= 10
    ensures 0 <= a * b <= 25
  {
    assert 4 * (a * b) == (a + b) * (a + b) - (a - b) * (a - b);
    assert (a - b) * (a - b) >= 0;
    assert (a + b) * (a + b) <= 10 * (a + b) <= 100;
  }

  lemma Distributes(a: int, b: int, c: int)
    ensures (a + b) * c == a * c + b * c && c * (a + b) == c * a + c * b
  {
  }

  /** n batches of a tenth of the rate each, taken apart into seconds and tens. */
  lemma FairShare(q: nat, m: nat, tens: nat, ones: nat)
    ensures (10 * q + m) * (10 * tens + ones) == 10 * (q * (10 * tens + ones) + m * tens) + m * ones
  {
    var rate := 10 * tens + ones;
    Distributes(10 * q, m, rate);
    Distributes(10 * tens, ones, m);
    TenTimes(q, rate);
    TenTimes(m, tens);
  }

  lemma TenTimes(a: int, b: int)
    ensures (10 * a) * b == 10 * (a * b) && a * (10 * b) == 10 * (a * b)
  {
  }

  /** At any moment the jobs given room so far are at least the rate's share of the time, and at most 2.5 more. */
  lemma PaceIsEven(rate: nat, n: nat)
    ensures 0 <= 10 * Room(rate, n) - n * rate <= 25
  {
    RoomInClosedForm(rate, n);
    FairShare(n / 10, n % 10, rate / 10, rate % 10);
    assert 10 * (n / 10) + n % 10 == n && 10 * (rate / 10) + rate % 10 == rate;
    ExcessWithinASecond(n % 10, rate % 10);
    hide Room, Min;
  }

  /** The first k jobs, in order. */
  function Jobs(k: nat): seq<nat> { seq(k, i requires 0 <= i => i + 1) }

  lemma OneMoreJob(k: nat)
    ensures Jobs(k) + [k + 1] == Jobs(k + 1) && |Jobs(k)| == k
  {
  }

  /** At a positive rate the first batch of every second has room, so that empty batches come to an end. */
  lemma EmptyBatchesEnd(rate: nat, batch: nat)
    requires rate >= 1 && BatchSize(rate, batch) == 0
    ensures (10 - (batch + 1) % 10) % 10 < (10 - batch % 10) % 10
  {
    NextTenth(batch);
    assert rate % 10 == rate && batch % 10 >= 1;
  }

  /** Sends jobs 1, 2, ... in batches until all are sent or the run is cancelled. Each send and each wait for the next
      tick is one select; done tells which of them find the context done. A batch can be empty, at a rate below ten. */
  method Dispatch(rate: nat, transfers: nat, done: nat -> bool) returns (sent: seq<nat>, ticks: nat, stopped: bool)
    requires rate >= 1
    ensures sent == Jobs(|sent|) && |sent| <= transfers
    ensures !stopped ==> |sent| == transfers
    ensures (forall k: nat :: k < |sent| + ticks ==> !done(k)) && (stopped ==> done(|sent| + ticks))
    ensures Room(rate, ticks) <= |sent| <= Room(rate, ticks + 1)
    ensures ticks > 0 ==> Room(rate, ticks) < transfers
  {
    hide BatchSize, Jobs;
    sent, ticks, stopped := [], 0, false;
    NoJobs();
    var next, batch, selects := 1, 0, 0;
    while true
      invariant sent == Jobs(next - 1) && 1 <= next <= transfers + 1 && |sent| == next - 1
      invariant ticks == batch && !stopped && next - 1 == Min(Room(rate, batch), transfers)
      invariant batch > 0 ==> Room(rate, batch) < transfers
      invariant selects == |sent| + ticks && forall k: nat :: k < selects ==> !done(k)
      decreases transfers + 1 - next, (10 - batch % 10) % 10
    {
      var i := 0;
      ghost var before := next;
      assert Room(rate, batch + 1) == Room(rate, batch) + BatchSize(rate, batch);
      while i < BatchSize(rate, batch) && next <= transfers
        invariant 0 <= i <= BatchSize(rate, batch) && next == before + i && 1 <= next <= transfers + 1
        invariant sent == Jobs(next - 1) && |sent| == next - 1
        invariant selects == |sent| + ticks && forall k: nat :: k < selects ==> !done(k)
        decreases transfers + 1 - next
      {
        if done(selects) {
          stopped := true;
          return;
        }
        OneMoreJob(next - 1);
        sent, next, selects, i := sent + [next], next + 1, selects + 1, i + 1;
      }
      if next > transfers { return; }
      if done(selects) {
        stopped := true;
        return;
      }
      if next == before { EmptyBatchesEnd(rate, batch); }
      ticks, batch, selects := ticks + 1, batch + 1, selects + 1;
    }
  }

  lemma NoJobs()
    ensures Jobs(0) == []
  {
  }
}
