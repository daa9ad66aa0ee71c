/** The sliding-window limiter of login attempts, against the full list of admitted attempts. */
module LoginRateLimiter {
  import opened Common

  datatype LimitError = TooManyAttempts

  predicate Ordered(times: seq<real>) {
    forall i, j :: 0 <= i <= j < |times| ==> times[i] <= times[j]
  }

  /** How many of the times lie in the closed window [start, start + length]. */
  function CountIn(times: seq<real>, start: real, length: real): nat {
    if times == [] then 0
    else
      var last := times[|times| - 1];
      CountIn(times[..|times| - 1], start, length) + (if start <= last <= start + length then 1 else 0)
  }

  /** An attempt and the one `most` places before it are more than a window apart. */
  predicate Spaced(times: seq<real>, most: nat, length: real) {
    Ordered(times) && forall j :: most <= j < |times| ==> times[j - most] < times[j] - length
  }

  lemma {:induction false} CountAfter(times: seq<real>, start: real, length: real, k: nat)
    requires k <= |times| && forall i :: 0 <= i < k ==> times[i] < start
    ensures CountIn(times, start, length) <= |times| - k
  {
    if |times| > k {
      CountAfter(times[..|times| - 1], start, length, k);
    } else if times != [] {
      CountAfter(times[..|times| - 1], start, length, k - 1);
    }
  }

  /** Spaced times put at most `most` into any closed window of that length, wherever it starts. */
  lemma {:induction false} AnyWindowHoldsAtMost(times: seq<real>, start: real, length: real, most: nat)
    requires Spaced(times, most, length)
    ensures CountIn(times, start, length) <= most
  {
    if |times| > most {
      var last := times[|times| - 1];
      if last > start + length {
        AnyWindowHoldsAtMost(times[..|times| - 1], start, length, most);
      } else {
        assert times[|times| - 1 - most] < last - length;
        CountAfter(times, start, length, |times| - most);
      }
    } else {
      CountAfter(times, start, length, 0);
    }
  }

  lemma {:induction false} CountOfSuffix(times: seq<real>, k: nat, start: real, length: real)
    requires k <= |times|
    requires forall i :: 0 <= i < k ==> times[i] < start
    requires forall i :: k <= i < |times| ==> start <= times[i] <= start + length
    ensures CountIn(times, start, length) == |times| - k
  {
    if |times| > k {
      CountOfSuffix(times[..|times| - 1], k, start, length);
    } else if times != [] {
      CountOfSuffix(times[..|times| - 1], k - 1, start, length);
    }
  }

  /** The queue is the end of the full list; what it forgot is out of every window still to come. */
  predicate Remembered(all: seq<real>, recent: seq<real>, clock: real, most: nat, window: real) {
    && |recent| <= |all| && recent == all[|all| - |recent|..]
    && (forall i :: 0 <= i < |all| - |recent| ==> all[i] < clock - window)
    && (forall i :: 0 <= i < |all| ==> all[i] <= clock)
    && Spaced(all, most, window)
  }

  predicate AllSince(times: seq<real>, start: real) {
    forall i :: 0 <= i < |times| ==> times[i] >= start
  }

  lemma RecentSince(all: seq<real>, recent: seq<real>, start: real, now: real, window: real)
    requires |recent| <= |all| && recent == all[|all| - |recent|..] && start == now - window && window >= 0.0
    requires forall i :: |all| - |recent| <= i < |all| ==> all[i] >= start
    ensures AllSince(recent, start) && AllSince(recent + [now], start)
  {
  }

  /** Drop what has left the window. */
  method Pruned(recent: seq<real>, start: real, ghost all: seq<real>) returns (r: seq<real>)
    requires Ordered(all) && |recent| <= |all| && recent == all[|all| - |recent|..]
    requires forall i :: 0 <= i < |all| - |recent| ==> all[i] < start
    ensures |r| <= |all| && r == all[|all| - |r|..]
    ensures forall i :: 0 <= i < |all| - |r| ==> all[i] < start
    ensures forall i :: |all| - |r| <= i < |all| ==> all[i] >= start
  {
    r := recent;
    while r != [] && r[0] < start
      invariant |r| <= |all| && r == all[|all| - |r|..]
      invariant forall i :: 0 <= i < |all| - |r| ==> all[i] < start
    {
      r := r[1..];
    }
    assert r != [] ==> r[0] == all[|all| - |r|];
  }

  lemma AdmittedRemembered(all: seq<real>, recent: seq<real>, now: real, most: nat, window: real)
    requires Remembered(all, recent, now, most, window) && |recent| < most
    ensures Remembered(all + [now], recent + [now], now, most, window)
  {
    var more := all + [now];
    forall j | most <= j < |more|
      ensures more[j - most] < more[j] - window
    {
      if j < |all| {
        assert all[j - most] < all[j] - window;
      }
    }
  }

  // ----- All keys together -----

  function TimesOf(times: map<string, seq<real>>, key: string): seq<real> {
    if key in times then times[key] else []
  }

  ghost predicate AllRemembered(
    admitted: map<string, seq<real>>, attempts: map<string, seq<real>>, clock: real, most: nat, window: real) {
    forall key :: Remembered(TimesOf(admitted, key), TimesOf(attempts, key), clock, most, window)
  }

  lemma AllLater(
    admitted: map<string, seq<real>>, attempts: map<string, seq<real>>, clock: real, now: real, most: nat, window: real)
    requires AllRemembered(admitted, attempts, clock, most, window) && now >= clock
    ensures AllRemembered(admitted, attempts, now, most, window)
  {
    forall key
      ensures Remembered(TimesOf(admitted, key), TimesOf(attempts, key), now, most, window)
    {
      Later(TimesOf(admitted, key), TimesOf(attempts, key), clock, now, most, window);
    }
  }

  lemma Later(all: seq<real>, recent: seq<real>, clock: real, now: real, most: nat, window: real)
    requires Remembered(all, recent, clock, most, window) && now >= clock
    ensures Remembered(all, recent, now, most, window)
  {
    hide Spaced;
  }

  lemma KeyUpdated(
    admitted: map<string, seq<real>>, attempts: map<string, seq<real>>, clock: real, most: nat, window: real,
    key: string, all: seq<real>, recent: seq<real>)
    requires AllRemembered(admitted, attempts, clock, most, window) && Remembered(all, recent, clock, most, window)
    ensures AllRemembered(admitted[key := all], attempts[key := recent], clock, most, window)
    ensures all == TimesOf(admitted, key) ==> AllRemembered(admitted, attempts[key := recent], clock, most, window)
    ensures all == [] && recent == [] ==> AllRemembered(admitted - {key}, attempts - {key}, clock, most, window)
  {
    hide Remembered;
    var more, queued := admitted[key := all], attempts[key := recent];
    var fewer, unqueued := admitted - {key}, attempts - {key};
    forall other
      ensures Remembered(TimesOf(more, other), TimesOf(queued, other), clock, most, window)
    {
      assert Remembered(TimesOf(admitted, other), TimesOf(attempts, other), clock, most, window);
    }
    forall other | all == [] && recent == []
      ensures Remembered(TimesOf(fewer, other), TimesOf(unqueued, other), clock, most, window)
    {
      assert Remembered(TimesOf(admitted, other), TimesOf(attempts, other), clock, most, window);
    }
    forall other | all == TimesOf(admitted, key)
      ensures Remembered(TimesOf(admitted, other), TimesOf(queued, other), clock, most, window)
    {
      assert Remembered(TimesOf(admitted, other), TimesOf(attempts, other), clock, most, window);
    }
  }

  class LoginRateLimiter {
    const maxAttempts: nat
    const window: real
    var attempts: map<string, seq<real>>
    /** Every attempt admitted since the key was last reset, and the latest clock reading. */
    ghost var admitted: map<string, seq<real>>
    ghost var clock: real

    constructor (maxAttempts: nat, window: real)
      requires window >= 0.0
      ensures Valid() && this.maxAttempts == maxAttempts && this.window == window && admitted == map[]
    {
      this.maxAttempts, this.window := maxAttempts, window;
      attempts, admitted, clock := map[], map[], 0.0;
    }

    ghost predicate Valid()
      reads this
    {
      window >= 0.0 && AllRemembered(admitted, attempts, clock, maxAttempts, window)
    }

    /**
      Admits an attempt exactly when fewer than the maximum were admitted in the window that ends
      now, although older attempts have been forgotten.
     */
    method Check(key: string, now: real) returns (r: Result<(), LimitError>)
      requires Valid() && now >= clock
      modifies this
      ensures Valid() && clock == now
      ensures r.Ok? <==> CountIn(TimesOf(old(admitted), key), now - window, window) < maxAttempts
      ensures r.Ok? ==> admitted == old(admitted)[key := TimesOf(old(admitted), key) + [now]]
      ensures r.Err? ==> admitted == old(admitted)
      ensures AllSince(TimesOf(attempts, key), now - window)
    {
      hide CountIn, Spaced, AllRemembered, AllSince;
      ghost var all := TimesOf(admitted, key);
      AllLater(admitted, attempts, clock, now, maxAttempts, window);
      clock := now;
      KeyRemembered(admitted, attempts, now, maxAttempts, window, key);
      var recent := Pruned(TimesOf(attempts, key), now - window, all);
      CountOfSuffix(all, |all| - |recent|, now - window, window);
      RecentSince(all, recent, now - window, now, window);
      KeyUpdated(admitted, attempts, now, maxAttempts, window, key, all, recent);
      attempts := attempts[key := recent];
      if |recent| >= maxAttempts {
        return Err(TooManyAttempts);
      }
      AdmittedRemembered(all, recent, now, maxAttempts, window);
      KeyUpdated(admitted, attempts, now, maxAttempts, window, key, all + [now], recent + [now]);
      attempts := attempts[key := recent + [now]];
      admitted := admitted[key := all + [now]];
      return Ok(());
    }

    method Reset(key: string)
      requires Valid()
      modifies `attempts, `admitted
      ensures Valid() && admitted == old(admitted) - {key}
    {
      hide AllRemembered;
      NothingRemembered(clock, maxAttempts, window);
      KeyUpdated(admitted, attempts, clock, maxAttempts, window, key, [], []);
      attempts := attempts - {key};
      admitted := admitted - {key};
    }

    /** At any time, of any key, any closed window holds at most the maximum of admitted attempts. */
    lemma WindowRespected(key: string, start: real)
      requires Valid()
      ensures CountIn(TimesOf(admitted, key), start, window) <= maxAttempts
    {
      assert Remembered(TimesOf(admitted, key), TimesOf(attempts, key), clock, maxAttempts, window);
      AnyWindowHoldsAtMost(TimesOf(admitted, key), start, window, maxAttempts);
    }
  }

  lemma KeyRemembered(
    admitted: map<string, seq<real>>, attempts: map<string, seq<real>>, clock: real, most: nat, window: real, key: string)
    requires AllRemembered(admitted, attempts, clock, most, window)
    ensures Remembered(TimesOf(admitted, key), TimesOf(attempts, key), clock, most, window)
    ensures Ordered(TimesOf(admitted, key))
  {
  }

  lemma NothingRemembered(clock: real, most: nat, window: real)
    ensures Remembered([], [], clock, most, window)
  {
  }
}
