/** The in-process sliding-window limiter, and the log of calls it answers from. */
module RateLimit {
  import opened Options

  const UNITS := {1, 60, 3600, 86400}

  datatype RateData = RateData(count: nat, window: nat)

  // What parse_rate() returns.
  type Rate = r: RateData | r.count >= 1 && r.window in UNITS witness RateData(1, 1)

  datatype Call = Call(key: string, rate: Rate, time: real, allowed: bool)

  function Cutoff(rate: Rate, now: real): real { now - rate.window as real }

  // The times of the hits allowed for the key, oldest first.
  function Allowed(history: seq<Call>, key: string): seq<real> {
    if history == [] then []
    else
      var c := history[|history| - 1];
      Allowed(history[..|history| - 1], key) + (if c.key == key && c.allowed then [c.time] else [])
  }

  // How many of the times lie after `from` and not after `to`.
  function Between(times: seq<real>, from: real, to: real): nat {
    if times == [] then 0
    else (if from < times[0] <= to then 1 else 0) + Between(times[1..], from, to)
  }

  // What the limiter promises: allow a hit exactly when fewer than `count` allowed ones lie in the window before it.
  predicate MayPass(history: seq<Call>, key: string, rate: Rate, now: real) {
    Between(Allowed(history, key), Cutoff(rate, now), now) < rate.count
  }

  // No earlier call on the key used a shorter window.
  predicate NoShorterWindow(history: seq<Call>, key: string, rate: Rate) {
    forall i :: 0 <= i < |history| && history[i].key == key ==> rate.window <= history[i].rate.window
  }

  ghost predicate Fair(history: seq<Call>) {
    forall i :: 0 <= i < |history| ==> FairAt(history, i)
  }

  ghost predicate FairAt(history: seq<Call>, i: nat)
    requires i < |history|
  {
    var c := history[i];
    NoShorterWindow(history[..i], c.key, c.rate) ==> (c.allowed <==> MayPass(history[..i], c.key, c.rate, c.time))
  }

  predicate Sorted(times: seq<real>) {
    forall i, j :: 0 <= i < j < |times| ==> times[i] <= times[j]
  }

  // The clock never goes back.
  predicate InOrder(history: seq<Call>, now: real) {
    && (forall i, j :: 0 <= i < j < |history| ==> history[i].time <= history[j].time)
    && (forall i :: 0 <= i < |history| ==> history[i].time <= now)
  }

  lemma {:induction false} BetweenAdds(a: seq<real>, b: seq<real>, from: real, to: real)
    ensures Between(a + b, from, to) == Between(a, from, to) + Between(b, from, to)
  {
    if a == [] {
      assert a + b == b;
    } else {
      BetweenAdds(a[1..], b, from, to);
      assert (a + b)[1..] == a[1..] + b;
    }
  }

  lemma {:induction false} BetweenNone(a: seq<real>, from: real, to: real)
    requires forall i :: 0 <= i < |a| ==> a[i] <= from
    ensures Between(a, from, to) == 0
  {
    if a != [] { BetweenNone(a[1..], from, to); }
  }

  lemma {:induction false} BetweenAll(a: seq<real>, from: real, to: real)
    requires forall i :: 0 <= i < |a| ==> from < a[i] <= to
    ensures Between(a, from, to) == |a|
  {
    if a != [] { BetweenAll(a[1..], from, to); }
  }

  lemma {:induction false} BetweenGrows(a: seq<real>, from: real, to: real, from': real, to': real)
    requires forall i :: 0 <= i < |a| && from < a[i] <= to ==> from' < a[i] <= to'
    ensures Between(a, from, to) <= Between(a, from', to')
  {
    if a != [] { BetweenGrows(a[1..], from, to, from', to'); }
  }

  lemma {:induction false} AllowedInOrder(history: seq<Call>, key: string, now: real)
    requires InOrder(history, now)
    ensures Sorted(Allowed(history, key))
    ensures forall i :: 0 <= i < |Allowed(history, key)| ==> Allowed(history, key)[i] <= now
  {
    if history != [] {
      AllowedInOrder(history[..|history| - 1], key, history[|history| - 1].time);
    }
  }

  // The deque after `while bucket and bucket[0] <= cutoff: bucket.popleft()`.
  function Drop(bucket: seq<real>, cutoff: real): seq<real> {
    if bucket != [] && bucket[0] <= cutoff then Drop(bucket[1..], cutoff) else bucket
  }

  lemma {:induction false} DropIsSuffix(bucket: seq<real>, cutoff: real) returns (k: nat)
    ensures k <= |bucket| && Drop(bucket, cutoff) == bucket[k..]
    ensures forall i :: 0 <= i < k ==> bucket[i] <= cutoff
    ensures k < |bucket| ==> bucket[k] > cutoff
  {
    k := 0;
    if bucket != [] && bucket[0] <= cutoff {
      k := DropIsSuffix(bucket[1..], cutoff);
      k := k + 1;
    }
  }

  // Some call on the key has a window that the time has left.
  ghost predicate Stale(history: seq<Call>, key: string, now: real, time: real) {
    exists i :: 0 <= i < |history| && history[i].key == key && time <= Cutoff(history[i].rate, now)
  }

  // The deque is the newest part of the log, and what it lacks is stale.
  ghost predicate Tracks(history: seq<Call>, key: string, now: real, bucket: seq<real>) {
    var times := Allowed(history, key);
    && |bucket| <= |times|
    && bucket == times[|times| - |bucket|..]
    && forall i :: 0 <= i < |times| - |bucket| ==> Stale(history, key, now, times[i])
  }

  lemma StaleStays(history: seq<Call>, key: string, now: real, time: real, history': seq<Call>, now': real)
    requires Stale(history, key, now, time) && now <= now' && history <= history'
    ensures Stale(history', key, now', time)
  {
    var i :| 0 <= i < |history| && history[i].key == key && time <= Cutoff(history[i].rate, now);
    assert history'[i] == history[i];
  }

  lemma DropTracks(history: seq<Call>, key: string, now: real, bucket: seq<real>, history': seq<Call>, now': real,
                   i: nat)
    requires Tracks(history, key, now, bucket) && now <= now' && history <= history'
    requires Allowed(history', key) == Allowed(history, key)
    requires i < |history'| && history'[i].key == key
    ensures Tracks(history', key, now', Drop(bucket, Cutoff(history'[i].rate, now')))
  {
    var times := Allowed(history, key);
    var n := |times| - |bucket|;
    var k := DropIsSuffix(bucket, Cutoff(history'[i].rate, now'));
    forall j | 0 <= j < n + k ensures Stale(history', key, now', times[j]) {
      if j < n {
        StaleStays(history, key, now, times[j], history', now');
      } else {
        assert times[j] == bucket[j - n];
      }
    }
  }

  lemma TracksLater(history: seq<Call>, key: string, now: real, bucket: seq<real>, history': seq<Call>, now': real)
    requires Tracks(history, key, now, bucket) && now <= now' && history <= history'
    requires Allowed(history', key) == Allowed(history, key)
    ensures Tracks(history', key, now', bucket)
  {
    var times := Allowed(history, key);
    forall j | 0 <= j < |times| - |bucket| ensures Stale(history', key, now', times[j]) {
      StaleStays(history, key, now, times[j], history', now');
    }
  }

  lemma AllowedOneMore(history: seq<Call>, c: Call, key: string)
    ensures Allowed(history + [c], key) == Allowed(history, key) + (if c.key == key && c.allowed then [c.time] else [])
  {
    assert (history + [c])[..|history|] == history;
  }

  lemma PushTracks(history: seq<Call>, c: Call, bucket: seq<real>)
    requires Tracks(history + [c.(allowed := false)], c.key, c.time, bucket) && c.allowed
    ensures Tracks(history + [c], c.key, c.time, bucket + [c.time])
  {
    var refused, taken := history + [c.(allowed := false)], history + [c];
    AllowedOneMore(history, c, c.key);
    AllowedOneMore(history, c.(allowed := false), c.key);
    var times := Allowed(history, c.key);
    assert Allowed(refused, c.key) == times;
    forall j | 0 <= j < |times| - |bucket| ensures Stale(taken, c.key, c.time, times[j]) {
      assert Stale(refused, c.key, c.time, times[j]);
      var i :| 0 <= i < |refused| && refused[i].key == c.key && times[j] <= Cutoff(refused[i].rate, c.time);
      assert taken[i].key == refused[i].key && taken[i].rate == refused[i].rate;
    }
  }

  lemma BetweenSplits(times: seq<real>, n: nat, from: real, to: real)
    requires Sorted(times) && n <= |times| && forall i :: 0 <= i < |times| ==> times[i] <= to
    requires (forall i :: 0 <= i < n ==> times[i] <= from) && (n < |times| ==> from < times[n])
    ensures Between(times, from, to) == |times| - n
  {
    assert times == times[..n] + times[n..];
    BetweenAdds(times[..n], times[n..], from, to);
    BetweenNone(times[..n], from, to);
    BetweenAll(times[n..], from, to);
  }

  lemma StaleIsOut(history: seq<Call>, key: string, rate: Rate, now: real, time: real)
    requires Stale(history, key, now, time) && NoShorterWindow(history, key, rate)
    ensures time <= Cutoff(rate, now)
  {
  }

  // What is left of the deque are the hits in the window, unless an earlier call used a shorter one.
  lemma DroppedIsWindow(history: seq<Call>, key: string, rate: Rate, now: real, bucket: seq<real>)
    requires InOrder(history, now) && Tracks(history, key, now, bucket)
    requires NoShorterWindow(history, key, rate)
    ensures |Drop(bucket, Cutoff(rate, now))| == Between(Allowed(history, key), Cutoff(rate, now), now)
  {
    var times := Allowed(history, key);
    AllowedInOrder(history, key, now);
    var k := DropIsSuffix(bucket, Cutoff(rate, now));
    var n := |times| - |bucket| + k;
    forall j | 0 <= j < n ensures times[j] <= Cutoff(rate, now) {
      if j < |times| - |bucket| {
        StaleIsOut(history, key, rate, now, times[j]);
      } else {
        assert times[j] == bucket[j - (|times| - |bucket|)];
      }
    }
    if n < |times| { assert times[n] == bucket[k]; }
    BetweenSplits(times, n, Cutoff(rate, now), now);
  }

  function Ceil(x: real): int { -((-x).Floor) }

  function Max(a: int, b: int): int { if a < b then b else a }

  // The seconds a refused caller is told to wait.
  function RetryAfter(bucket: seq<real>, rate: Rate, now: real): (wait: nat)
    requires bucket != []
    ensures wait >= 1
  {
    Max(1, Ceil(bucket[0] + rate.window as real - now))
  }

  predicate OneRate(history: seq<Call>, key: string, rate: Rate) {
    forall i :: 0 <= i < |history| && history[i].key == key ==> history[i].rate == rate
  }

  lemma FairPrefix(history: seq<Call>, n: nat)
    requires Fair(history) && n <= |history|
    ensures Fair(history[..n])
  {
    forall i | 0 <= i < n ensures FairAt(history[..n], i) {
      assert FairAt(history, i);
      assert history[..n][..i] == history[..i];
    }
  }

  // If a hit was let through, every window that holds it holds at most `count`.
  lemma NewestFits(history: seq<Call>, key: string, rate: Rate, now: real, t: real)
    requires InOrder(history, now) && MayPass(history, key, rate, now)
    requires Between(Allowed(history, key), Cutoff(rate, t), t) <= rate.count
    ensures Between(Allowed(history, key) + [now], Cutoff(rate, t), t) <= rate.count
  {
    var times := Allowed(history, key);
    BetweenAdds(times, [now], Cutoff(rate, t), t);
    assert [now][1..] == [];
    assert Between([now], Cutoff(rate, t), t) == if Cutoff(rate, t) < now <= t then 1 else 0;
    if Cutoff(rate, t) < now <= t {
      AllowedInOrder(history, key, now);
      BetweenGrows(times, Cutoff(rate, t), t, Cutoff(rate, now), now);
    }
  }

  lemma WindowOneMore(history: seq<Call>, c: Call, key: string, rate: Rate, t: real)
    requires InOrder(history, c.time)
    requires c.key == key && c.allowed ==> MayPass(history, key, rate, c.time)
    requires Between(Allowed(history, key), Cutoff(rate, t), t) <= rate.count
    ensures Between(Allowed(history + [c], key), Cutoff(rate, t), t) <= rate.count
  {
    AllowedOneMore(history, c, key);
    if c.key == key && c.allowed {
      NewestFits(history, key, rate, c.time, t);
    } else {
      assert Allowed(history, key) + [] == Allowed(history, key);
    }
  }

  /** No window, wherever it ends, ever holds more than `count` allowed hits of a key that has one rate. */
  lemma {:induction false} NoWindowOverfull(history: seq<Call>, key: string, rate: Rate, now: real, t: real)
    requires InOrder(history, now) && Fair(history) && OneRate(history, key, rate)
    ensures Between(Allowed(history, key), t - rate.window as real, t) <= rate.count
    decreases |history|
  {
    if history != [] {
      var n := |history| - 1;
      var c, before := history[n], history[..n];
      FairPrefix(history, n);
      NoWindowOverfull(before, key, rate, c.time, t);
      assert history == before + [c];
      if c.key == key {
        assert FairAt(history, n) && c.rate == rate;
        assert NoShorterWindow(before, key, rate);
      }
      WindowOneMore(before, c, key, rate, t);
    }
  }

  // The hit would be let through after the wait, if the key were left alone.
  predicate PassesAfter(history: seq<Call>, key: string, rate: Rate, now: real, wait: nat) {
    MayPass(history, key, rate, now + wait as real)
  }

  ghost predicate LeastWait(history: seq<Call>, key: string, rate: Rate, now: real, retry: nat) {
    forall wait: nat :: PassesAfter(history, key, rate, now, wait) <==> wait >= retry
  }

  lemma OldestLeaves(bucket: seq<real>, rate: Rate, now: real, wait: nat)
    requires bucket != [] && bucket[0] > Cutoff(rate, now)
    ensures |Drop(bucket, Cutoff(rate, now + wait as real))| < |bucket| <==> wait >= RetryAfter(bucket, rate, now)
  {
    var k := DropIsSuffix(bucket, Cutoff(rate, now + wait as real));
    assert k > 0 <==> bucket[0] + rate.window as real - now <= wait as real;
  }

  lemma FullBucket(history: seq<Call>, key: string, rate: Rate, now: real, bucket: seq<real>)
    requires InOrder(history, now) && Fair(history) && OneRate(history, key, rate)
    requires Tracks(history, key, now, bucket)
    ensures |Drop(bucket, Cutoff(rate, now))| <= rate.count
  {
    NoWindowOverfull(history, key, rate, now, now);
    DroppedIsWindow(history, key, rate, now, bucket);
  }

  lemma DroppedLater(history: seq<Call>, key: string, rate: Rate, now: real, bucket: seq<real>, later: real)
    requires InOrder(history, now) && OneRate(history, key, rate)
    requires Tracks(history, key, now, bucket) && now <= later
    ensures |Drop(bucket, Cutoff(rate, later))| == Between(Allowed(history, key), Cutoff(rate, later), later)
  {
    TracksLater(history, key, now, bucket, history, later);
    DroppedIsWindow(history, key, rate, later, bucket);
  }

  lemma {:induction false} DropTwice(bucket: seq<real>, cutoff: real, later: real)
    requires cutoff <= later
    ensures Drop(Drop(bucket, cutoff), later) == Drop(bucket, later)
  {
    if bucket != [] && bucket[0] <= cutoff { DropTwice(bucket[1..], cutoff, later); }
  }

  /** The wait is the least whole number of seconds after which the key, left alone, is let through again. */
  lemma RetryIsLeast(history: seq<Call>, key: string, rate: Rate, now: real, bucket: seq<real>, left: seq<real>)
    requires InOrder(history, now) && Fair(history) && OneRate(history, key, rate)
    requires Tracks(history, key, now, bucket) && left == Drop(bucket, Cutoff(rate, now))
    requires |left| >= rate.count
    ensures LeastWait(history, key, rate, now, RetryAfter(left, rate, now))
  {
    FullBucket(history, key, rate, now, bucket);
    var k := DropIsSuffix(bucket, Cutoff(rate, now));
    forall wait: nat ensures PassesAfter(history, key, rate, now, wait) <==> wait >= RetryAfter(left, rate, now) {
      var later := now + wait as real;
      DroppedLater(history, key, rate, now, bucket, later);
      DropTwice(bucket, Cutoff(rate, now), Cutoff(rate, later));
      OldestLeaves(left, rate, now, wait);
    }
  }

  function Bucket(hits: map<string, seq<real>>, key: string): seq<real> {
    if key in hits then hits[key] else []
  }

  function WindowOf(windows: map<string, nat>, key: string): nat {
    if key in windows then windows[key] else 0
  }

  // What purging leaves of one key's deque.
  function Swept(hits: map<string, seq<real>>, windows: map<string, nat>, now: real, key: string): seq<real> {
    Drop(Bucket(hits, key), now - WindowOf(windows, key) as real)
  }

  ghost predicate WindowSeen(history: seq<Call>, key: string, window: nat) {
    exists i :: 0 <= i < |history| && history[i].key == key && history[i].rate.window == window
  }

  ghost predicate Inv(history: seq<Call>, hits: map<string, seq<real>>, windows: map<string, nat>, now: real) {
    && InOrder(history, now) && Fair(history)
    && hits.Keys == windows.Keys
    && (forall key {:trigger Bucket(hits, key)} :: Tracks(history, key, now, Bucket(hits, key)))
    && (forall key :: key in windows ==> WindowSeen(history, key, windows[key]))
  }

  lemma LaterKeepsInv(history: seq<Call>, hits: map<string, seq<real>>, windows: map<string, nat>, now: real,
                      now': real)
    requires Inv(history, hits, windows, now) && now <= now'
    ensures Inv(history, hits, windows, now')
  {
    forall key ensures Tracks(history, key, now', Bucket(hits, key)) {
      TracksLater(history, key, now, Bucket(hits, key), history, now');
    }
  }

  lemma SweptTracks(history: seq<Call>, key: string, now: real, bucket: seq<real>, window: nat)
    requires Tracks(history, key, now, bucket) && WindowSeen(history, key, window)
    ensures Tracks(history, key, now, Drop(bucket, now - window as real))
  {
    var i :| 0 <= i < |history| && history[i].key == key && history[i].rate.window == window;
    DropTracks(history, key, now, bucket, history, now, i);
  }

  // Every deque is swept, and those left empty are gone with their windows.
  ghost predicate IsPurged(hits: map<string, seq<real>>, windows: map<string, nat>, now: real,
                           hits': map<string, seq<real>>, windows': map<string, nat>) {
    && hits'.Keys == windows'.Keys <= hits.Keys
    && (forall key :: key in windows' ==> windows'[key] == WindowOf(windows, key))
    && (forall key :: key in hits ==> Bucket(hits', key) == Swept(hits, windows, now, key))
    && (forall key :: key in hits' ==> hits'[key] != [])
  }

  lemma PurgedTracks(history: seq<Call>, hits: map<string, seq<real>>, windows: map<string, nat>, now: real,
                     key: string, left: seq<real>)
    requires Tracks(history, key, now, Bucket(hits, key)) && (key in windows ==> WindowSeen(history, key, windows[key]))
    requires hits.Keys == windows.Keys
    requires left == if key in hits then Swept(hits, windows, now, key) else []
    ensures Tracks(history, key, now, left)
  {
    if key in hits { SweptTracks(history, key, now, Bucket(hits, key), windows[key]); }
  }

  lemma PurgeKeepsInv(history: seq<Call>, hits: map<string, seq<real>>, windows: map<string, nat>, now: real,
                      hits': map<string, seq<real>>, windows': map<string, nat>)
    requires Inv(history, hits, windows, now) && IsPurged(hits, windows, now, hits', windows')
    ensures Inv(history, hits', windows', now)
  {
    forall key ensures Tracks(history, key, now, Bucket(hits', key)) {
      PurgedTracks(history, hits, windows, now, key, Bucket(hits', key));
    }
  }

  // The deque a hit leaves behind.
  function Filled(bucket: seq<real>, rate: Rate, now: real): seq<real> {
    var left := Drop(bucket, Cutoff(rate, now));
    if |left| >= rate.count then left else left + [now]
  }

  ghost predicate SweptIf(sweep: bool, hits: map<string, seq<real>>, windows: map<string, nat>, now: real,
                          hits': map<string, seq<real>>, windows': map<string, nat>) {
    if sweep then IsPurged(hits, windows, now, hits', windows') else hits' == hits && windows' == windows
  }

  // The limiter's maps after a hit.
  ghost predicate Stored(sweep: bool, hits: map<string, seq<real>>, windows: map<string, nat>, key: string,
                         rate: Rate, now: real, hits': map<string, seq<real>>, windows': map<string, nat>) {
    exists h, w {:trigger SweptIf(sweep, hits, windows, now, h, w)} ::
      && SweptIf(sweep, hits, windows, now, h, w)
      && hits' == h[key := Filled(Bucket(h, key), rate, now)]
      && windows' == w[key := Max(WindowOf(w, key), rate.window)]
  }

  lemma StoredBy(sweep: bool, hits: map<string, seq<real>>, windows: map<string, nat>, h: map<string, seq<real>>,
                 w: map<string, nat>, key: string, rate: Rate, now: real,
                 hits': map<string, seq<real>>, windows': map<string, nat>)
    requires SweptIf(sweep, hits, windows, now, h, w)
    requires hits' == h[key := Filled(Bucket(h, key), rate, now)]
    requires windows' == w[key := Max(WindowOf(w, key), rate.window)]
    ensures Stored(sweep, hits, windows, key, rate, now, hits', windows')
  {
  }

  lemma HitIsFair(history: seq<Call>, hits: map<string, seq<real>>, windows: map<string, nat>, c: Call)
    requires Inv(history, hits, windows, c.time)
    requires c.allowed <==> |Drop(Bucket(hits, c.key), Cutoff(c.rate, c.time))| < c.rate.count
    ensures InOrder(history + [c], c.time) && Fair(history + [c])
  {
    var h := history + [c];
    assert h[..|history|] == history;
    if NoShorterWindow(history, c.key, c.rate) {
      DroppedIsWindow(history, c.key, c.rate, c.time, Bucket(hits, c.key));
    }
    forall i | 0 <= i < |h| ensures FairAt(h, i) {
      if i < |history| {
        assert FairAt(history, i);
        assert h[..i] == history[..i];
      }
    }
  }

  lemma HitAnswers(history: seq<Call>, c: Call)
    requires Fair(history + [c])
    ensures NoShorterWindow(history, c.key, c.rate) ==> (c.allowed <==> MayPass(history, c.key, c.rate, c.time))
  {
    assert FairAt(history + [c], |history|);
    assert (history + [c])[..|history|] == history;
  }

  lemma HitTracks(history: seq<Call>, bucket: seq<real>, c: Call)
    requires Tracks(history, c.key, c.time, bucket)
    requires c.allowed <==> |Drop(bucket, Cutoff(c.rate, c.time))| < c.rate.count
    ensures Tracks(history + [c], c.key, c.time, Filled(bucket, c.rate, c.time))
  {
    var h := history + [c.(allowed := false)];
    AllowedOneMore(history, c.(allowed := false), c.key);
    DropTracks(history, c.key, c.time, bucket, h, c.time, |history|);
    if c.allowed {
      PushTracks(history, c, Drop(bucket, Cutoff(c.rate, c.time)));
    } else {
      assert h == history + [c];
    }
  }

  lemma HitKeepsInv(history: seq<Call>, hits: map<string, seq<real>>, windows: map<string, nat>, c: Call,
                    history': seq<Call>, hits': map<string, seq<real>>, windows': map<string, nat>, now: real)
    requires Inv(history, hits, windows, now) && now == c.time && history' == history + [c]
    requires c.allowed <==> |Drop(Bucket(hits, c.key), Cutoff(c.rate, c.time))| < c.rate.count
    requires hits' == hits[c.key := Filled(Bucket(hits, c.key), c.rate, c.time)]
    requires windows' == windows[c.key := Max(WindowOf(windows, c.key), c.rate.window)]
    ensures Inv(history', hits', windows', now)
  {
    var h := history';
    HitIsFair(history, hits, windows, c);
    forall key ensures Tracks(h, key, c.time, Bucket(hits', key)) {
      if key == c.key {
        HitTracks(history, Bucket(hits, key), c);
      } else {
        AllowedOneMore(history, c, key);
        TracksLater(history, key, c.time, Bucket(hits, key), h, c.time);
      }
    }
    forall key | key in windows' ensures WindowSeen(h, key, windows'[key]) {
      if key != c.key || windows'[key] != c.rate.window {
        var i :| 0 <= i < |history| && history[i].key == key && history[i].rate.window == windows[key];
        assert h[i] == history[i];
      } else {
        assert h[|history|] == c;
      }
    }
  }

  datatype State = State(history: seq<Call>, hits: map<string, seq<real>>, windows: map<string, nat>, now: real)

  // What happens to a limiter: a call is served, or all keys are swept, leaving these maps.
  datatype Event = Serve(c: Call) | Sweep(now: real, hits: map<string, seq<real>>, windows: map<string, nat>)

  // Whether the limiter would let a hit through.
  predicate Lets(s: State, key: string, rate: Rate, now: real) {
    |Drop(Bucket(s.hits, key), Cutoff(rate, now))| < rate.count
  }

  function Served(s: State, c: Call): State {
    State(s.history + [c], s.hits[c.key := Filled(Bucket(s.hits, c.key), c.rate, c.time)],
          s.windows[c.key := Max(WindowOf(s.windows, c.key), c.rate.window)], c.time)
  }

  ghost predicate Leads(s: State, events: seq<Event>, t: State)
    decreases |events|
  {
    if events == [] then s == t
    else
      match events[0]
      case Serve(c) =>
        s.now <= c.time && (c.allowed <==> Lets(s, c.key, c.rate, c.time)) && Leads(Served(s, c), events[1..], t)
      case Sweep(now, hits, windows) =>
        && s.now <= now && IsPurged(s.hits, s.windows, now, hits, windows)
        && Leads(s.(hits := hits, windows := windows, now := now), events[1..], t)
  }

  lemma {:induction false} LeadsKeepsInv(s: State, events: seq<Event>, t: State)
    requires Inv(s.history, s.hits, s.windows, s.now) && Leads(s, events, t)
    ensures Inv(t.history, t.hits, t.windows, t.now)
    decreases |events|
  {
    if events != [] {
      match events[0]
      case Serve(c) =>
        LaterKeepsInv(s.history, s.hits, s.windows, s.now, c.time);
        var n := Served(s, c);
        HitKeepsInv(s.history, s.hits, s.windows, c, n.history, n.hits, n.windows, n.now);
        LeadsKeepsInv(n, events[1..], t);
      case Sweep(now, hits, windows) =>
        LaterKeepsInv(s.history, s.hits, s.windows, s.now, now);
        PurgeKeepsInv(s.history, s.hits, s.windows, now, hits, windows);
        LeadsKeepsInv(s.(hits := hits, windows := windows, now := now), events[1..], t);
    }
  }

  /** A purge changes no answer to a hit whose window is no longer than the longest its key is known with. */
  lemma PurgeChangesNoAnswer(s: State, hits: map<string, seq<real>>, windows: map<string, nat>, key: string, rate: Rate,
                             now: real, later: real)
    requires s.hits.Keys == s.windows.Keys && IsPurged(s.hits, s.windows, now, hits, windows)
    requires now <= later && (key in s.windows ==> rate.window <= s.windows[key])
    ensures Lets(s, key, rate, later) <==> Lets(s.(hits := hits, windows := windows), key, rate, later)
  {
    if key in s.hits {
      DropTwice(s.hits[key], now - s.windows[key] as real, Cutoff(rate, later));
    }
  }

  // With a longer window it can: one known with 60 s, hit at 0, purged at 60, and hit again at 100 with 3600 s.
  lemma PurgeForgetsForLongerWindow() returns (s: State, purged: State, rate: Rate)
    ensures IsPurged(s.hits, s.windows, 60.0, purged.hits, purged.windows) && rate.window > WindowOf(s.windows, "")
    ensures Leads(FRESH, [Serve(Call("", RateData(1, 60), 0.0, true))], s)
    ensures !Lets(s, "", rate, 100.0) && Lets(purged, "", rate, 100.0)
  {
    var c := Call("", RateData(1, 60), 0.0, true);
    s, rate := Served(FRESH, c), RateData(1, 3600);
    purged := State(s.history, map[], map[], 60.0);
    assert Leads(s, [], s) && [Serve(c)][1..] == [];
    assert Bucket(s.hits, "") == [0.0] && s.hits.Keys == {""};
    assert Drop([0.0], Cutoff(rate, 100.0)) == [0.0];
  }

  predicate OnlyWindow(history: seq<Call>, key: string, window: nat) {
    forall i :: 0 <= i < |history| && history[i].key == key ==> history[i].rate.window == window
  }

  const FRESH := State([], map[], map[], 0.0)

  // After any run in which a key was used with one window, the limiter answers a hit with another one right.
  ghost predicate AnswersRight(used: nat, window: nat) {
    forall events, t, key, rate: Rate, now ::
      Leads(FRESH, events, t) && OnlyWindow(t.history, key, used) && rate.window == window && t.now <= now
      ==> (Lets(t, key, rate, now) <==> MayPass(t.history, key, rate, now))
  }

  lemma LetsRight(events: seq<Event>, t: State, key: string, rate: Rate, now: real)
    requires Leads(FRESH, events, t) && NoShorterWindow(t.history, key, rate) && t.now <= now
    ensures Lets(t, key, rate, now) <==> MayPass(t.history, key, rate, now)
  {
    LeadsKeepsInv(FRESH, events, t);
    LaterKeepsInv(t.history, t.hits, t.windows, t.now, now);
    DroppedIsWindow(t.history, key, rate, now, Bucket(t.hits, key));
  }

  // After a hit at 0 and one when the shorter window has just passed, the deque has forgotten the first.
  lemma ShorterWindowForgets(used: Rate, window: nat) returns (events: seq<Event>, t: State, rate: Rate, now: real)
    requires used.window < window && window in UNITS
    ensures Leads(FRESH, events, t) && OnlyWindow(t.history, "", used.window) && rate.window == window && t.now <= now
    ensures Lets(t, "", rate, now) && !MayPass(t.history, "", rate, now)
  {
    now, rate := used.window as real, RateData(2, window);
    var first, second := Call("", used, 0.0, true), Call("", used, now, true);
    var s := Served(FRESH, first);
    t := Served(s, second);
    events := [Serve(first), Serve(second)];
    assert Bucket(s.hits, "") == [0.0];
    assert Drop([0.0], Cutoff(used, now)) == [] && Bucket(t.hits, "") == [now];
    assert events[1..] == [Serve(second)] && events[1..][1..] == [];
    assert Leads(t, [], t) && Leads(s, events[1..], t);
    TwoHits(first, second, Cutoff(rate, now), now);
    assert t.history == [] + [first] + [second];
  }

  lemma TwoHits(first: Call, second: Call, from: real, to: real)
    requires first.key == second.key && first.allowed && second.allowed && from < first.time <= to &&
      from < second.time <= to
    ensures Between(Allowed([] + [first] + [second], first.key), from, to) == 2
  {
    AllowedOneMore([], first, first.key);
    AllowedOneMore([] + [first], second, first.key);
    var times := [] + [first.time] + [second.time];
    assert Allowed([], first.key) == [];
    assert Allowed([] + [first] + [second], first.key) == times;
    BetweenAll(times, from, to);
  }

  /**
   * A key used with one window is answered right with another one, whatever happened, exactly when that is no
   * longer.
   */
  lemma AnswersRightIffNotLonger(used: nat, window: nat)
    requires used in UNITS && window in UNITS
    ensures AnswersRight(used, window) <==> window <= used
  {
    if window <= used {
      forall events, t, key, rate: Rate, now
        | Leads(FRESH, events, t) && OnlyWindow(t.history, key, used) && rate.window == window && t.now <= now
        ensures Lets(t, key, rate, now) <==> MayPass(t.history, key, rate, now)
      {
        LetsRight(events, t, key, rate, now);
      }
    } else {
      var events, t, rate, now := ShorterWindowForgets(RateData(1, used), window);
    }
  }

  // The loop `while bucket and bucket[0] <= cutoff: bucket.popleft()`.
  method DropLeft(bucket: seq<real>, cutoff: real) returns (left: seq<real>)
    ensures left == Drop(bucket, cutoff)
  {
    left := bucket;
    while left != [] && left[0] <= cutoff
      invariant Drop(left, cutoff) == Drop(bucket, cutoff)
    {
      left := left[1..];
    }
  }

  // All keys but those to do are swept.
  ghost predicate Sweeping(hits: map<string, seq<real>>, windows: map<string, nat>, now: real, todo: set<string>,
                           h: map<string, seq<real>>, w: map<string, nat>) {
    && todo <= h.Keys == w.Keys <= hits.Keys
    && (forall k :: k in w ==> w[k] == WindowOf(windows, k))
    && (forall k :: k in todo ==> h[k] == hits[k])
    && (forall k :: k in hits && k !in todo ==> Bucket(h, k) == Swept(hits, windows, now, k))
    && (forall k :: k in h && k !in todo ==> h[k] != [])
  }

  lemma SweptOneMore(hits: map<string, seq<real>>, windows: map<string, nat>, now: real, todo: set<string>,
                     h: map<string, seq<real>>, w: map<string, nat>, key: string,
                     h': map<string, seq<real>>, w': map<string, nat>)
    requires Sweeping(hits, windows, now, todo, h, w) && key in todo
    requires var left := Swept(hits, windows, now, key);
             if left == [] then h' == h - {key} && w' == w - {key} else h' == h[key := left] && w' == w
    ensures Sweeping(hits, windows, now, todo - {key}, h', w')
  {
    forall k | k in hits && k !in todo - {key} ensures Bucket(h', k) == Swept(hits, windows, now, k) {
      assert k != key ==> Bucket(h', k) == Bucket(h, k);
    }
  }

  // The loop of _purge().
  method SweepAll(hits: map<string, seq<real>>, windows: map<string, nat>, now: real)
      returns (hits': map<string, seq<real>>, windows': map<string, nat>)
    requires hits.Keys == windows.Keys
    ensures IsPurged(hits, windows, now, hits', windows')
  {
    hits', windows' := hits, windows;
    var todo := hits.Keys;
    while todo != {}
      invariant Sweeping(hits, windows, now, todo, hits', windows')
      decreases |todo|
    {
      var key :| key in todo;
      var bucket := DropLeft(hits'[key], now - WindowOf(windows', key) as real);
      ghost var h, w := hits', windows';
      if bucket == [] {
        hits', windows' := hits' - {key}, windows' - {key};
      } else {
        hits' := hits'[key := bucket];
      }
      SweptOneMore(hits, windows, now, todo, h, w, key, hits', windows');
      todo := todo - {key};
    }
  }

  // Answers one hit and gives back the key's deque.
  method Admit(ghost history: seq<Call>, hits: map<string, seq<real>>, ghost windows: map<string, nat>,
               key: string, rate: Rate, now: real) returns (retry: Option<nat>, bucket: seq<real>)
    requires Inv(history, hits, windows, now)
    ensures bucket == Filled(Bucket(hits, key), rate, now)
    ensures retry.None? <==> |Drop(Bucket(hits, key), Cutoff(rate, now))| < rate.count
    ensures retry.Some? && OneRate(history, key, rate) ==> LeastWait(history, key, rate, now, retry.value)
  {
    bucket := DropLeft(Bucket(hits, key), Cutoff(rate, now));
    if |bucket| >= rate.count {
      if OneRate(history, key, rate) { RetryIsLeast(history, key, rate, now, Bucket(hits, key), bucket); }
      retry := Some(RetryAfter(bucket, rate, now));
    } else {
      bucket := bucket + [now];
      retry := None;
    }
  }

  class InMemoryRateLimiter {
    var hits: map<string, seq<real>>
    var maxWindow: map<string, nat>
    var calls: nat
    // The calls since the limiter was made or reset, and the clock's last reading.
    ghost var history: seq<Call>
    ghost var clock: real

    ghost predicate Valid()
      reads this
    {
      Inv(history, hits, maxWindow, clock)
    }

    constructor ()
      ensures Valid() && history == [] && hits == map[] && maxWindow == map[] && calls == 0
    {
      hits, maxWindow, calls, history, clock := map[], map[], 0, [], 0.0;
    }

    /**
     * Unless an earlier call on the key used a shorter window, the hit is allowed exactly when fewer than
     * `count` allowed ones lie in the window; with one rate, a refused caller is told the least wait.
     */
    method Hit(key: string, rate: Rate, now: real) returns (retry: Option<nat>)
      requires Valid() && clock <= now
      modifies this
      ensures Valid() && clock == now && calls == old(calls) + 1
      ensures Stored(calls % 1000 == 0, old(hits), old(maxWindow), key, rate, now, hits, maxWindow)
      ensures history == old(history) + [Call(key, rate, now, retry.None?)]
      ensures NoShorterWindow(old(history), key, rate) ==> (retry.None? <==> MayPass(old(history), key, rate, now))
      ensures retry.Some? && OneRate(old(history), key, rate) ==> LeastWait(old(history), key, rate, now, retry.value)
    {
      calls := calls + 1;
      PurgeIfDue(now);
      ghost var h, hits0, windows0 := history, hits, maxWindow;
      var bucket;
      retry, bucket := Admit(h, hits, windows0, key, rate, now);
      hits, maxWindow := hits[key := bucket], maxWindow[key := Max(WindowOf(maxWindow, key), rate.window)];
      ghost var c := Call(key, rate, now, retry.None?);
      history := h + [c];
      HitKeepsInv(h, hits0, windows0, c, history, hits, maxWindow, now);
      HitAnswers(h, c);
      StoredBy(calls % 1000 == 0, old(hits), old(maxWindow), hits0, windows0, key, rate, now, hits, maxWindow);
    }

    // Every thousandth hit sweeps all keys first.
    method PurgeIfDue(now: real)
      requires Valid() && clock <= now
      modifies this`hits, this`maxWindow, this`clock
      ensures Inv(history, hits, maxWindow, now) && clock == now
      ensures SweptIf(calls % 1000 == 0, old(hits), old(maxWindow), now, hits, maxWindow)
    {
      LaterKeepsInv(history, hits, maxWindow, clock, now);
      clock := now;
      if calls % 1000 == 0 {
        Purge(now);
      }
    }

    method Purge(now: real)
      requires Valid() && clock == now
      modifies this`hits, this`maxWindow
      ensures Valid() && IsPurged(old(hits), old(maxWindow), now, hits, maxWindow)
    {
      ghost var hits0, windows0 := hits, maxWindow;
      hits, maxWindow := SweepAll(hits, maxWindow, now);
      PurgeKeepsInv(history, hits0, windows0, now, hits, maxWindow);
    }

    method Reset()
      modifies this
      ensures Valid() && history == [] && hits == map[] && maxWindow == map[]
      ensures calls == old(calls) && clock == old(clock)
    {
      hits, maxWindow, history := map[], map[], [];
    }
  }
}
