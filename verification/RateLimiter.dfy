/** internal/api/client.go: the fixed-window reader that limits replay uploads. */
module RateLimiter {
  import opened Basics

  const SECOND := 1_000_000_000   // nanoseconds

  // ---- the ledger: what a reader did, and how much that can be in an interval ----

  /** One Read that returned count bytes at a time, charged to a window. */
  datatype Delivery = Delivery(at: int, count: nat, window: nat)

  /** windows are the values windowStart took, in order. */
  datatype Ledger = Ledger(windows: seq<int>, deliveries: seq<Delivery>)

  /** Bytes charged to windows lo to hi. */
  function Charged(ds: seq<Delivery>, lo: int, hi: int): nat {
    if ds == [] then 0
    else
      var d := ds[|ds| - 1];
      Charged(ds[..|ds| - 1], lo, hi) + if lo <= d.window <= hi then d.count else 0
  }

  /** Bytes returned at times from to to, both included. */
  function Returned(ds: seq<Delivery>, from: int, to: int): nat {
    if ds == [] then 0
    else
      var d := ds[|ds| - 1];
      Returned(ds[..|ds| - 1], from, to) + if from <= d.at <= to then d.count else 0
  }

  /** A delivery happens after its window started and not after the next one did. */
  predicate InWindow(windows: seq<int>, d: Delivery) {
    && d.window < |windows|
    && windows[d.window] <= d.at
    && (d.window + 1 < |windows| ==> d.at <= windows[d.window + 1])
  }

  ghost predicate Sound(l: Ledger, limit: nat) {
    && l.windows != []
    && (forall k :: 0 < k < |l.windows| ==> l.windows[k] - l.windows[k - 1] >= SECOND)
    && (forall d :: d in l.deliveries ==> InWindow(l.windows, d))
    && (forall k: nat :: Charged(l.deliveries, k, k) <= limit)
  }

  lemma {:induction false} Spaced(l: Ledger, limit: nat, i: nat, j: nat)
    requires Sound(l, limit) && i <= j < |l.windows|
    ensures l.windows[j] - l.windows[i] >= (j - i) * SECOND
  {
    if i == j {
    } else {
      Spaced(l, limit, i, j - 1);
    }
  }

  lemma {:induction false} ChargedSplit(ds: seq<Delivery>, lo: int, hi: int)
    requires lo <= hi
    ensures Charged(ds, lo, hi) == Charged(ds, lo, hi - 1) + Charged(ds, hi, hi)
  {
    if ds == [] {
    } else {
      ChargedSplit(ds[..|ds| - 1], lo, hi);
    }
  }

  lemma {:induction false} ChargedNone(ds: seq<Delivery>, lo: int, hi: int)
    requires hi < lo
    ensures Charged(ds, lo, hi) == 0
  {
    if ds == [] {
    } else {
      ChargedNone(ds[..|ds| - 1], lo, hi);
    }
  }

  /** n windows carry at most n times the limit. */
  lemma {:induction false} ChargedBound(l: Ledger, limit: nat, lo: int, hi: int)
    requires Sound(l, limit) && 0 <= lo <= hi + 1
    ensures Charged(l.deliveries, lo, hi) <= (hi - lo + 1) * limit
    decreases hi - lo
  {
    if hi < lo {
      ChargedNone(l.deliveries, lo, hi);
    } else {
      ChargedSplit(l.deliveries, lo, hi);
      ChargedBound(l, limit, lo, hi - 1);
      assert (hi - lo + 1) * limit == (hi - lo) * limit + limit;
    }
  }

  lemma {:induction false} ReturnedWithin(ds: seq<Delivery>, from: int, to: int, lo: int, hi: int)
    requires forall d :: d in ds && from <= d.at <= to ==> lo <= d.window <= hi
    ensures Returned(ds, from, to) <= Charged(ds, lo, hi)
  {
    if ds == [] {
    } else {
      assert ds[|ds| - 1] in ds;
      ReturnedWithin(ds[..|ds| - 1], from, to, lo, hi);
    }
  }

  /** The first window that can still return bytes at or after a time. */
  function FirstOpen(windows: seq<int>, from: int, k: nat): (lo: nat)
    requires k < |windows|
    ensures k <= lo < |windows|
    ensures lo + 1 < |windows| ==> windows[lo + 1] >= from
    ensures forall i :: k < i <= lo ==> windows[i] < from
    decreases |windows| - k
  {
    if k + 1 == |windows| || windows[k + 1] >= from then k else FirstOpen(windows, from, k + 1)
  }

  /** One past the last window started by a time. */
  function Started(windows: seq<int>, to: int): (n: nat)
    ensures n <= |windows|
    ensures n > 0 ==> windows[n - 1] <= to
    ensures forall i :: n <= i < |windows| ==> windows[i] > to
  {
    if windows == [] then 0
    else if windows[|windows| - 1] <= to then |windows|
    else Started(windows[..|windows| - 1], to)
  }

  lemma DivLower(n: int, length: int)
    requires n * SECOND <= length
    ensures n <= length / SECOND
  {
  }

  lemma WindowsTouched(l: Ledger, limit: nat, from: int, length: nat)
    requires Sound(l, limit)
    ensures Started(l.windows, from + length) - FirstOpen(l.windows, from, 0) <= length / SECOND + 2
  {
    var lo, hi := FirstOpen(l.windows, from, 0), Started(l.windows, from + length) - 1;
    if lo < hi {
      Spaced(l, limit, lo + 1, hi);
      DivLower(hi - lo - 1, length);
    }
  }

  lemma ReturnedTouched(l: Ledger, limit: nat, from: int, to: int)
    requires Sound(l, limit)
    ensures Returned(l.deliveries, from, to)
         <= Charged(l.deliveries, FirstOpen(l.windows, from, 0), Started(l.windows, to) - 1)
  {
    ReturnedWithin(l.deliveries, from, to, FirstOpen(l.windows, from, 0), Started(l.windows, to) - 1);
  }

  /** In any interval of length T a reader returns at most (floor(T) + 2) * B bytes. */
  lemma IntervalBound(l: Ledger, limit: nat, from: int, length: nat)
    requires Sound(l, limit)
    ensures Returned(l.deliveries, from, from + length) <= (length / 1_000_000_000 + 2) * limit
  {
    var lo := FirstOpen(l.windows, from, 0);
    var hi := Started(l.windows, from + length) - 1;
    ReturnedTouched(l, limit, from, from + length);
    WindowsTouched(l, limit, from, length);
    ChargedAtMost(l, limit, lo, hi, length / SECOND + 2);
  }

  lemma ChargedAtMost(l: Ledger, limit: nat, lo: nat, hi: int, n: nat)
    requires Sound(l, limit) && hi - lo + 1 <= n
    ensures Charged(l.deliveries, lo, hi) <= n * limit
  {
    if hi < lo {
      ChargedNone(l.deliveries, lo, hi);
    } else {
      ChargedBound(l, limit, lo, hi);
      Times(hi - lo + 1, n, limit);
    }
  }

  /** Within T of its creation a reader returns at most (floor(T) + 1) * B bytes. */
  lemma CreationBound(l: Ledger, limit: nat, length: nat)
    requires Sound(l, limit)
    ensures Returned(l.deliveries, l.windows[0], l.windows[0] + length) <= (length / 1_000_000_000 + 1) * limit
  {
    var hi := Started(l.windows, l.windows[0] + length) - 1;
    ReturnedWithin(l.deliveries, l.windows[0], l.windows[0] + length, 0, hi);
    if hi >= 0 {
      Spaced(l, limit, 0, hi);
      DivLower(hi, length);
    }
    ChargedAtMost(l, limit, 0, hi, length / SECOND + 1);
  }

  // ---- how a ledger grows ----

  lemma {:induction false} NothingChargedYet(ds: seq<Delivery>, k: nat)
    requires forall d :: d in ds ==> d.window < k
    ensures Charged(ds, k, k) == 0
  {
    if ds == [] {
    } else {
      assert ds[|ds| - 1] in ds;
      NothingChargedYet(ds[..|ds| - 1], k);
    }
  }

  lemma OpenWindow(l: Ledger, limit: nat, start: int, now: int)
    requires Sound(l, limit)
    requires forall d :: d in l.deliveries ==> d.at <= now <= start
    requires start - l.windows[|l.windows| - 1] >= SECOND
    ensures var l' := Ledger(l.windows + [start], l.deliveries);
            Sound(l', limit) && Charged(l'.deliveries, |l.windows|, |l.windows|) == 0
  {
    var w := l.windows + [start];
    forall d | d in l.deliveries ensures InWindow(w, d) { assert InWindow(l.windows, d); }
    NothingChargedYet(l.deliveries, |l.windows|);
  }

  lemma Deliver(l: Ledger, limit: nat, at: int, count: nat)
    requires Sound(l, limit)
    requires var k := |l.windows| - 1; l.windows[k] <= at && Charged(l.deliveries, k, k) + count <= limit
    requires forall d :: d in l.deliveries ==> d.at <= at
    ensures var k := |l.windows| - 1;
            var ds := l.deliveries + [Delivery(at, count, k)];
            && Sound(Ledger(l.windows, ds), limit)
            && Charged(ds, k, k) == Charged(l.deliveries, k, k) + count
            && (forall d :: d in ds ==> d.at <= at)
  {
    var k := |l.windows| - 1;
    var d := Delivery(at, count, k);
    var ds := l.deliveries + [d];
    forall e | e in ds ensures InWindow(l.windows, e) && e.at <= at { assert e == d || e in l.deliveries; }
    forall i: nat ensures Charged(ds, i, i) == Charged(l.deliveries, i, i) + if i == k then count else 0 {
      ChargedSnoc(l.deliveries, d, i);
    }
  }

  lemma ChargedSnoc(ds: seq<Delivery>, d: Delivery, k: int)
    ensures Charged(ds + [d], k, k) == Charged(ds, k, k) + if d.window == k then d.count else 0
  {
    assert (ds + [d])[..|ds|] == ds;
  }

  function Total(ds: seq<Delivery>): nat {
    if ds == [] then 0 else Total(ds[..|ds| - 1]) + ds[|ds| - 1].count
  }

  /** An interval that has all deliveries has all bytes, and two adjacent intervals have those of both. */
  lemma {:induction false} ReturnedAll(ds: seq<Delivery>, from: int, to: int)
    requires forall d :: d in ds ==> from <= d.at <= to
    ensures Returned(ds, from, to) == Total(ds)
  {
    if ds == [] {
    } else {
      assert ds[|ds| - 1] in ds;
      ReturnedAll(ds[..|ds| - 1], from, to);
    }
  }

  lemma {:induction false} ReturnedSplit(ds: seq<Delivery>, from: int, mid: int, to: int)
    requires from <= mid <= to
    ensures Returned(ds, from, to) == Returned(ds, from, mid) + Returned(ds, mid + 1, to)
  {
    if ds == [] {
    } else {
      ReturnedSplit(ds[..|ds| - 1], from, mid, to);
    }
  }

  lemma TotalSnoc(ds: seq<Delivery>, d: Delivery)
    ensures Total(ds + [d]) == Total(ds) + d.count
  {
    assert (ds + [d])[..|ds|] == ds;
  }

  /** No delivery lies before the first window. */
  lemma {:induction false} WindowsGrow(l: Ledger, limit: nat, k: nat)
    requires Sound(l, limit) && k < |l.windows|
    ensures l.windows[0] <= l.windows[k]
  {
    if k == 0 {
    } else {
      WindowsGrow(l, limit, k - 1);
    }
  }

  // ---- the reader ----

  /** int64(limitMbps) * 1024 * 1024 / 8, in 64-bit arithmetic and with Go's division. */
  function BytesPerSecond(limitMbps: int): int {
    var bits := Wrap64(Wrap64(limitMbps * 1024) * 1024);
    if bits < 0 then -(-bits / 8) else bits / 8
  }

  /** The configured rate is the rate of the reader exactly up to 2^43 - 1 megabits per second; above
      that the multiplication overflows. */
  lemma RateIff(limitMbps: int)
    requires 0 < limitMbps < 0x8000_0000_0000_0000
    ensures BytesPerSecond(limitMbps) == limitMbps * 131072 <==> limitMbps < 0x800_0000_0000
  {
  }

  /** The smallest limit that overflows: the computed rate is negative, so that there is no limit at all. */
  lemma RateWitness()
    ensures BytesPerSecond(0x800_0000_0000) == -0x1000_0000_0000_0000
  {
  }

  class RateLimitedReader {
    var source: seq<char>          // what the underlying reader still has
    const bytesPerSec: nat
    var allowance: int
    var windowStart: int
    var now: int                   // the monotone clock
    ghost var ledger: Ledger
    ghost var delivered: seq<char>
    ghost var requested: nat       // the length of the last request to the source
    ghost var slept: int           // the sum of the durations Sleep was called with
    ghost const stream: seq<char>

    ghost predicate Valid() reads this {
      && bytesPerSec > 0
      && 0 <= allowance <= bytesPerSec
      && ledger.windows != [] && Sound(ledger, bytesPerSec)
      && windowStart == ledger.windows[|ledger.windows| - 1] <= now
      && (forall d :: d in ledger.deliveries ==> d.at <= now)
      && allowance == Charged(ledger.deliveries, |ledger.windows| - 1, |ledger.windows| - 1)
      && delivered + source == stream
      && |delivered| == Total(ledger.deliveries)
    }

    constructor (source: seq<char>, bytesPerSec: nat, time: int)
      requires bytesPerSec > 0
      ensures Valid() && this.bytesPerSec == bytesPerSec && stream == source == this.source
      ensures ledger == Ledger([time], []) && now == time
    {
      this.source, this.bytesPerSec, this.allowance, this.windowStart := source, bytesPerSec, 0, time;
      now, ledger, delivered, stream, slept, requested := time, Ledger([time], []), [], source, 0, 0;
    }

    /** time.Since and time.Now: time may pass before the clock is read. */
    method Now() returns (t: int)
      modifies this`now
      ensures t == now >= old(now)
    {
      var passed: int :| passed >= 0;
      now := now + passed;
      t := now;
    }

    /** time.Sleep lasts at least as long as it was asked to. */
    method Sleep(duration: int)
      modifies this`now, this`slept
      ensures now >= old(now) && now >= old(now) + duration && slept == old(slept) + duration
    {
      slept := slept + duration;
      var longer: int :| longer >= 0;
      now := now + longer + if duration > 0 then duration else 0;
    }

    method StartWindow(earliest: int)
      requires Valid() && now >= earliest >= windowStart + SECOND
      modifies this`now, this`windowStart, this`allowance, this`ledger
      ensures Valid() && allowance == 0 && now >= old(now)
      ensures ledger == Ledger(old(ledger.windows) + [windowStart], old(ledger.deliveries))
    {
      windowStart := Now();
      OpenWindow(ledger, bytesPerSec, windowStart, old(now));
      allowance := 0;
      ledger := Ledger(ledger.windows + [windowStart], ledger.deliveries);
    }

    /** The part of Read before it reads; the answer is what may be read. It only sleeps when the current
        window is used up, for a second at most; it only opens a window, and just one, when the current one is
        used up or a second old. */
    method Admit() returns (remaining: int)
      requires Valid()
      modifies this`now, this`windowStart, this`allowance, this`ledger, this`slept
      ensures old(slept) <= slept <= old(slept) + 1_000_000_000
      ensures old(allowance) < bytesPerSec ==> slept == old(slept)
      ensures old(allowance) < bytesPerSec && now - old(windowStart) < 1_000_000_000 ==>
                ledger == old(ledger) && allowance == old(allowance)
      ensures old(now) - old(windowStart) >= 1_000_000_000 || old(allowance) == bytesPerSec ==>
                |ledger.windows| == |old(ledger.windows)| + 1
      ensures |ledger.windows| <= |old(ledger.windows)| + 1
      ensures ledger.windows != old(ledger.windows) ==> allowance == 0
      ensures Valid() && remaining == bytesPerSec - allowance > 0
      ensures ledger.deliveries == old(ledger.deliveries) && old(ledger.windows) <= ledger.windows
      ensures now >= old(now)
    {
      var t := Now();
      if t - windowStart >= SECOND {
        StartWindow(t);
      }
      remaining := bytesPerSec - allowance;
      if remaining <= 0 {
        t := Now();
        var sleepFor := SECOND - (t - windowStart);
        if sleepFor > 0 {
          Sleep(sleepFor);
        }
        StartWindow(now);
        remaining := bytesPerSec;
      }
    }

    /** The call of the underlying reader, which may block and returns any prefix of at most room bytes. */
    method Take(room: nat) returns (data: seq<char>)
      requires Valid() && allowance + room <= bytesPerSec
      modifies this`now, this`ledger, this`delivered, this`source, this`allowance, this`requested
      ensures Valid() && now >= old(now) && requested == room
      ensures delivered == old(delivered) + data && |data| <= room && allowance == old(allowance) + |data|
      ensures ledger == Ledger(old(ledger.windows), old(ledger.deliveries) + [Delivery(now, |data|, |ledger.windows| - 1)])
    {
      hide Sound;
      var _ := Now();
      ghost var before := ledger;
      requested := room;
      var n: nat :| n <= room && n <= |source|;
      data := source[..n];
      Advance(delivered, source, n);
      TotalSnoc(before.deliveries, Delivery(now, n, |before.windows| - 1));
      Deliver(before, bytesPerSec, now, n);
      ledger := Ledger(before.windows, before.deliveries + [Delivery(now, n, |before.windows| - 1)]);
      delivered, source, allowance := delivered + data, source[n..], allowance + n;
    }

    /** asked is the length that reaches the underlying reader: all of it, or what the window has left. */
    method Read(length: nat) returns (data: seq<char>, ghost asked: nat)
      requires Valid()
      modifies this`now, this`windowStart, this`allowance, this`ledger, this`delivered, this`source, this`slept, this`requested
      ensures length > 0 ==> asked == requested
      ensures old(slept) <= slept <= old(slept) + 1_000_000_000
      ensures length == 0 || old(allowance) < bytesPerSec ==> slept == old(slept)
      ensures Valid() && now >= old(now)
      ensures delivered == old(delivered) + data && |data| <= asked <= length
      ensures length == 0 ==> ledger == old(ledger)
      ensures length > 0 ==> asked >= 1 && (asked == length || asked + allowance - |data| == bytesPerSec)
      ensures length > 0 ==>
                && old(ledger.windows) <= ledger.windows
                && ledger.deliveries == old(ledger.deliveries) + [Delivery(now, |data|, |ledger.windows| - 1)]
    {
      if length == 0 {
        return [], 0;
      }
      var remaining := Admit();
      var room := if length > remaining then remaining else length;
      asked := room;
      data := Take(room);
    }
  }

  lemma Advance(delivered: seq<char>, source: seq<char>, n: nat)
    requires n <= |source|
    ensures (delivered + source[..n]) + source[n..] == delivered + source
  {
    assert source == source[..n] + source[n..];
  }

  /** newRateLimitedReader: without a usable limit the source is returned as it is. */
  method NewRateLimitedReader(source: seq<char>, limitMbps: int, time: int) returns (r: RateLimitedReader?)
    ensures r == null <==> limitMbps <= 0 || BytesPerSecond(limitMbps) <= 0
    ensures r != null ==> fresh(r) && r.Valid() && r.bytesPerSec == BytesPerSecond(limitMbps) && r.stream == source
  {
    if limitMbps <= 0 {
      return null;
    }
    var bytesPerSec := BytesPerSecond(limitMbps);
    if bytesPerSec <= 0 {
      return null;
    }
    r := new RateLimitedReader(source, bytesPerSec, time);
  }

  lemma AllReturned(l: Ledger, limit: nat, now: int)
    requires Sound(l, limit) && forall d :: d in l.deliveries ==> d.at <= now
    ensures Returned(l.deliveries, l.windows[0], now) == Total(l.deliveries)
  {
    forall d | d in l.deliveries ensures l.windows[0] <= d.at {
      WindowsGrow(l, limit, d.window);
    }
    ReturnedAll(l.deliveries, l.windows[0], now);
  }

  /** Any run of Reads, of any lengths: the bounds hold over every interval, and what was delivered is a
      prefix of the source. */
  method Drive(source: seq<char>, bytesPerSec: nat, lengths: seq<nat>, start: int) returns (r: RateLimitedReader)
    requires bytesPerSec > 0
    ensures r.Valid() && r.delivered <= source && 0 <= r.allowance <= bytesPerSec
    ensures Returned(r.ledger.deliveries, start, r.now) == |r.delivered|
    ensures forall from, to :: from <= to ==>
              Returned(r.ledger.deliveries, from, to) <= ((to - from) / 1_000_000_000 + 2) * bytesPerSec
    ensures forall to :: start <= to ==>
              Returned(r.ledger.deliveries, start, to) <= ((to - start) / 1_000_000_000 + 1) * bytesPerSec
  {
    r := new RateLimitedReader(source, bytesPerSec, start);
    for i := 0 to |lengths|
      invariant fresh(r) && r.Valid() && r.bytesPerSec == bytesPerSec && r.stream == source
      invariant r.ledger.windows[0] == start
    {
      var _, _ := r.Read(lengths[i]);
    }
    AllReturned(r.ledger, bytesPerSec, r.now);
    forall from, to | from <= to
      ensures Returned(r.ledger.deliveries, from, to) <= ((to - from) / 1_000_000_000 + 2) * bytesPerSec
    {
      IntervalBound(r.ledger, bytesPerSec, from, to - from);
    }
    forall to | start <= to
      ensures Returned(r.ledger.deliveries, start, to) <= ((to - start) / 1_000_000_000 + 1) * bytesPerSec
    {
      CreationBound(r.ledger, bytesPerSec, to - start);
    }
  }
}
