/** The in-process fixed-window limiter. */
module RateLimit {
  import opened Options

  datatype Window = Window(start: int, count: int)

  /** What happened, oldest first. `opens` marks an admitted call that starts a window; a clear forgets all windows. */
  datatype Entry = Admit(key: string, at: int, opens: bool) | Deny(key: string, at: int) | Clear(at: int)

  function Init(log: seq<Entry>): seq<Entry>
    requires log != []
  {
    log[..|log| - 1]
  }

  function Last(log: seq<Entry>): Entry
    requires log != []
  {
    log[|log| - 1]
  }

  predicate In(t: int, a: int, b: int) {
    a <= t < b
  }

  function Admitted(log: seq<Entry>, key: string, a: int, b: int): nat {
    if log == [] then 0
    else Admitted(Init(log), key, a, b) + if Last(log).Admit? && Last(log).key == key && In(Last(log).at, a, b) then 1 else 0
  }

  function Opened(log: seq<Entry>, key: string, a: int, b: int): nat {
    if log == [] then 0
    else
      Opened(Init(log), key, a, b)
      + if Last(log).Admit? && Last(log).key == key && Last(log).opens && In(Last(log).at, a, b) then 1 else 0
  }

  function Cleared(log: seq<Entry>, a: int, b: int): nat {
    if log == [] then 0 else Cleared(Init(log), a, b) + if Last(log).Clear? && In(Last(log).at, a, b) then 1 else 0
  }

  /** The start of the key's last window, unless all were forgotten since. */
  function LastOpen(log: seq<Entry>, key: string): Option<int> {
    if log == [] then None
    else if Last(log).Clear? then None
    else if Last(log).Admit? && Last(log).key == key && Last(log).opens then Some(Last(log).at)
    else LastOpen(Init(log), key)
  }

  /** Calls of the key admitted since it last started a window. */
  function Since(log: seq<Entry>, key: string): nat {
    if log == [] then 0
    else if Last(log).Admit? && Last(log).key == key then if Last(log).opens then 1 else Since(Init(log), key) + 1
    else Since(Init(log), key)
  }

  /** The latest instant seen. */
  function Latest(log: seq<Entry>): Option<int> {
    if log == [] then None else Some(Max(Latest(Init(log)).Or(Last(log).at), Last(log).at))
  }

  /** Every entry is one the limiter can make: windows start only when the last one is over, and fill up to m calls. */
  predicate Legit(log: seq<Entry>, window: int, m: int) {
    log == [] ||
    (&& Legit(Init(log), window, m)
     && match Last(log)
        case Admit(key, _, true) =>
          m >= 1 && (LastOpen(Init(log), key).Some? ==> LastOpen(Init(log), key).value + window <= Latest(log).value)
        case Admit(key, _, false) => Since(Init(log), key) < m
        case _ => true)
  }

  predicate Monotone(log: seq<Entry>) {
    forall i, j :: 0 <= i < j < |log| ==> log[i].at <= log[j].at
  }

  lemma {:induction false} LatestIsLast(log: seq<Entry>)
    requires Monotone(log) && log != []
    ensures Latest(log) == Some(Last(log).at)
  {
    if |log| > 1 {
      LatestIsLast(Init(log));
    }
  }

  lemma {:induction false} SinceAtMost(log: seq<Entry>, window: int, m: int, key: string)
    requires Legit(log, window, m)
    ensures Since(log, key) <= Max(0, m)
  {
    if log != [] {
      SinceAtMost(Init(log), window, m, key);
    }
  }

  /** Nothing that happens from `b` on, or has happened before `a`, counts between them. */
  lemma {:induction false} NothingYet(log: seq<Entry>, key: string, a: int, b: int)
    requires forall i :: 0 <= i < |log| ==> log[i].at < a
    ensures Admitted(log, key, a, b) == 0 && Opened(log, key, a, b) == 0
  {
    if log != [] {
      NothingYet(Init(log), key, a, b);
    }
  }

  function Times(m: nat, n: nat): nat {
    if n == 0 then 0 else Times(m, n - 1) + m
  }

  lemma {:induction false} TimesIsProduct(m: nat, n: nat)
    ensures Times(m, n) == n * m
  {
    if n > 0 {
      TimesIsProduct(m, n - 1);
      assert n * m == (n - 1) * m + m;
    }
  }

  lemma {:induction false} TimesGrows(m: nat, n: nat, k: nat)
    requires n <= k
    ensures Times(m, n) <= Times(m, k)
  {
    if n < k {
      TimesGrows(m, n, k - 1);
    }
  }

  /** Between a and b, a window holds at most m calls, and one more window may have been under way. */
  lemma {:induction false} AdmittedPerWindow(log: seq<Entry>, window: int, m: nat, key: string, a: int, b: int)
    requires Legit(log, window, m) && Monotone(log)
    ensures Admitted(log, key, a, b) <= Times(m, Opened(log, key, a, b)) + m
    ensures log != [] && Last(log).at < b ==> Admitted(log, key, a, b) <= Times(m, Opened(log, key, a, b)) + Since(log, key)
  {
    if log != [] {
      AdmittedPerWindow(Init(log), window, m, key, a, b);
      SinceAtMost(Init(log), window, m, key);
      if Last(log).at < a {
        NothingYet(log, key, a, b);
      }
    }
  }

  /** Starts of the key's windows in an interval of the window's length: one, and one more for each clear in it. */
  lemma {:induction false} OpenedPerInterval(log: seq<Entry>, window: int, m: nat, key: string, a: int)
    requires Legit(log, window, m) && Monotone(log)
    ensures Opened(log, key, a, a + window) <= Cleared(log, a, a + window) + 1
    ensures (LastOpen(log, key).None? || LastOpen(log, key).value < a) && (log != [] ==> Last(log).at < a + window) ==>
      Opened(log, key, a, a + window) <= Cleared(log, a, a + window)
  {
    if log != [] {
      OpenedPerInterval(Init(log), window, m, key, a);
      LatestIsLast(log);
      if Last(log).at < a {
        NothingYet(log, key, a, a + window);
      }
    }
  }

  /**
   * While time does not run backwards, no interval as long as the window admits more than two windows' worth of calls
   * of one key, and one more for each time the limiter had to forget everything in it.
   */
  lemma SlidingBound(log: seq<Entry>, window: int, m: nat, key: string, a: int)
    requires Legit(log, window, m) && Monotone(log)
    ensures Admitted(log, key, a, a + window) <= (2 + Cleared(log, a, a + window)) * m
  {
    AdmittedPerWindow(log, window, m, key, a, a + window);
    OpenedPerInterval(log, window, m, key, a);
    var clears := Cleared(log, a, a + window);
    TimesGrows(m, Opened(log, key, a, a + window), clears + 1);
    TimesIsProduct(m, clears + 2);
  }

  /** The windows are what the log says, but for those that had run out by the latest instant. */
  ghost predicate Matches(log: seq<Entry>, windows: map<string, Window>, window: int, m: int, latest: Option<int>) {
    && (forall key :: key in windows ==>
          LastOpen(log, key) == Some(windows[key].start) && Since(log, key) == windows[key].count && windows[key].count <= m)
    && (forall key :: LastOpen(log, key).Some? && key !in windows ==>
          latest.Some? && LastOpen(log, key).value + window <= latest.value)
  }

  predicate Live(windows: map<string, Window>, key: string, window: int, now: int) {
    key in windows && now - windows[key].start < window
  }

  /** The keys whose windows still run. */
  function LiveKeys(windows: map<string, Window>, window: int, now: int): set<string> {
    set key | key in windows && Live(windows, key, window, now)
  }

  lemma Appended(log: seq<Entry>, e: Entry)
    ensures Init(log + [e]) == log && Last(log + [e]) == e
    ensures Latest(log + [e]) == Some(Max(Latest(log).Or(e.at), e.at))
  {
    assert (log + [e])[..|log|] == log;
  }

  /** The windows that still run at `now`. */
  function Kept(windows: map<string, Window>, window: int, now: int): map<string, Window> {
    map key | key in windows && Live(windows, key, window, now) :: windows[key]
  }

  function Upto(log: seq<Entry>, now: int): int {
    Max(Latest(log).Or(now), now)
  }

  lemma KeptMatches(log: seq<Entry>, windows: map<string, Window>, window: int, m: int, now: int)
    requires Matches(log, windows, window, m, Latest(log))
    ensures Matches(log, Kept(windows, window, now), window, m, Some(Upto(log, now)))
  {
    hide LastOpen, Since, Latest;
  }

  lemma KeptIsSmaller(windows: map<string, Window>, window: int, now: int)
    ensures |Kept(windows, window, now)| == |LiveKeys(windows, window, now)| <= |windows|
  {
    var live := LiveKeys(windows, window, now);
    assert Kept(windows, window, now).Keys == live <= windows.Keys;
    if live != windows.Keys {
      assert live < windows.Keys;
    }
    Subset(live, windows.Keys);
  }

  lemma Subset(s: set<string>, t: set<string>)
    requires s <= t
    ensures |s| <= |t|
  {
    assert t == s + (t - s);
  }

  lemma ClearMatches(log: seq<Entry>, window: int, m: int, now: int)
    requires Legit(log, window, m)
    ensures Legit(log + [Clear(now)], window, m) && Matches(log + [Clear(now)], map[], window, m, Some(Upto(log, now)))
    ensures Upto(log + [Clear(now)], now) == Upto(log, now)
  {
    Appended(log, Clear(now));
  }

  lemma OpenMatches(log: seq<Entry>, windows: map<string, Window>, window: int, m: int, key: string, now: int)
    requires Legit(log, window, m) && m >= 1 && Matches(log, windows, window, m, Some(Upto(log, now)))
    requires !Live(windows, key, window, now)
    ensures var after := log + [Admit(key, now, true)];
      Legit(after, window, m) && Matches(after, windows[key := Window(now, 1)], window, m, Latest(after))
  {
    Appended(log, Admit(key, now, true));
  }

  lemma JoinMatches(log: seq<Entry>, windows: map<string, Window>, window: int, m: int, key: string, now: int)
    requires Legit(log, window, m) && Matches(log, windows, window, m, Latest(log)) && key in windows && windows[key].count < m
    ensures var after := log + [Admit(key, now, false)];
      && Legit(after, window, m)
      && Matches(after, windows[key := Window(windows[key].start, windows[key].count + 1)], window, m, Latest(after))
  {
    Appended(log, Admit(key, now, false));
  }

  lemma DenyMatches(log: seq<Entry>, windows: map<string, Window>, window: int, m: int, key: string, now: int)
    requires Legit(log, window, m) && Matches(log, windows, window, m, Latest(log))
    ensures var after := log + [Deny(key, now)];
      Legit(after, window, m) && Matches(after, windows, window, m, Latest(after))
  {
    Appended(log, Deny(key, now));
  }

  class FixedWindowLimiter {
    const limit: int
    const windowMs: int
    const maxKeys: int
    var windows: map<string, Window>
    ghost var log: seq<Entry>

    ghost predicate Valid()
      reads this
    {
      && Legit(log, windowMs, Max(1, limit)) && Matches(log, windows, windowMs, Max(1, limit), Latest(log))
      && |windows| <= Max(1, maxKeys)
    }

    constructor (limit: int, windowMs: int, maxKeys: int)
      ensures Valid() && this.limit == limit && this.windowMs == windowMs && this.maxKeys == maxKeys && log == []
    {
      this.limit, this.windowMs, this.maxKeys := limit, windowMs, maxKeys;
      windows, log := map[], [];
    }

    /** The log after a call that opens a window; everything is forgotten only to make room among running windows. */
    ghost predicate Grew(before: seq<Entry>, was: map<string, Window>, key: string, now: int)
      reads this
    {
      || log == before + [Admit(key, now, !Live(was, key, windowMs, now))]
      || (&& log == before + [Clear(now)] + [Admit(key, now, true)]
          && maxKeys <= |LiveKeys(was, windowMs, now)| && !Live(was, key, windowMs, now))
    }

    /** 0 when the call is allowed, otherwise how long until the key's window resets. */
    method Take(key: string, now: int) returns (wait: int)
      requires Valid()
      modifies this
      ensures Valid()
      ensures wait == 0 ==> Grew(old(log), old(windows), key, now)
      ensures wait != 0 ==> log == old(log) + [Deny(key, now)] && windows == old(windows)
      ensures wait != 0 ==> wait > 0 && key in windows && wait == windows[key].start + windowMs - now && limit <= windows[key].count
      ensures wait != 0 && windows[key].start <= now ==> wait <= windowMs
    {
      hide Legit, Matches, Latest;
      if key !in windows || now - windows[key].start >= windowMs {
        if |windows| >= maxKeys {
          Prune(now);
        } else {
          NotPruned(log, windows, windowMs, Max(1, limit), now);
        }
        OpenMatches(log, windows, windowMs, Max(1, limit), key, now);
        windows := windows[key := Window(now, 1)];
        log := log + [Admit(key, now, true)];
        return 0;
      }
      var w := windows[key];
      if w.count >= limit {
        DenyMatches(log, windows, windowMs, Max(1, limit), key, now);
        log := log + [Deny(key, now)];
        return windowMs - (now - w.start);
      }
      JoinMatches(log, windows, windowMs, Max(1, limit), key, now);
      windows := windows[key := Window(w.start, w.count + 1)];
      log := log + [Admit(key, now, false)];
      return 0;
    }

    /** Windows that have run out go; if that makes no room, all of them do. */
    method Prune(now: int)
      requires Valid()
      modifies this
      ensures Legit(log, windowMs, Max(1, limit)) && Matches(log, windows, windowMs, Max(1, limit), Some(Upto(log, now)))
      ensures |windows| <= |old(windows)| && (|windows| < maxKeys || windows == map[])
      ensures if |LiveKeys(old(windows), windowMs, now)| < maxKeys
              then log == old(log) && windows == Kept(old(windows), windowMs, now)
              else log == old(log) + [Clear(now)] && windows == map[]
    {
      hide Legit, Matches, Latest;
      KeptMatches(log, windows, windowMs, Max(1, limit), now);
      KeptIsSmaller(windows, windowMs, now);
      DropExpired(now);
      if |windows| >= maxKeys {
        ClearMatches(log, windowMs, Max(1, limit), now);
        windows := map[];
        log := log + [Clear(now)];
      }
    }

    method DropExpired(now: int)
      modifies `windows
      ensures windows == Kept(old(windows), windowMs, now)
    {
      var keys := windows.Keys;
      while keys != {}
        invariant keys <= old(windows).Keys
        invariant forall k :: k in windows <==> k in keys || Live(old(windows), k, windowMs, now)
        invariant forall k :: k in windows ==> k in old(windows) && windows[k] == old(windows)[k]
      {
        var k :| k in keys;
        keys := keys - {k};
        if now - windows[k].start >= windowMs {
          windows := windows - {k};
        }
      }
    }
  }

  lemma NotPruned(log: seq<Entry>, windows: map<string, Window>, window: int, m: int, now: int)
    requires Matches(log, windows, window, m, Latest(log))
    ensures Matches(log, windows, window, m, Some(Upto(log, now)))
  {
    hide LastOpen, Since, Latest;
  }
}
