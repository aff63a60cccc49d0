/** The sliding-log rate limiter, and what it admits over whole runs. */
module RateLimiter {
  import opened Domain

  datatype RateLimitRule = RateLimitRule(pathPrefix: string, maxRequests: nat, windowSeconds: nat)

  /** The entries later than an instant, in order. */
  function After(log: seq<real>, start: real): seq<real> {
    if log == [] then []
    else After(log[..|log| - 1], start) + (if log[|log| - 1] > start then [log[|log| - 1]] else [])
  }

  /** One step of the stored list of a key: the new list and whether the request was admitted. */
  function Serve(stored: seq<real>, rule: RateLimitRule, now: real): (seq<real>, bool) {
    var recent := After(stored, now - rule.windowSeconds as real);
    if |recent| < rule.maxRequests then (recent + [now], true) else (recent, false)
  }

  class RateLimitMiddleware {
    var hits: map<string, seq<real>>

    constructor ()
      ensures hits == map[]
    {
      hits := map[];
    }

    /** What is stored for a key; a key never seen has the empty list. */
    function Stored(key: string): seq<real>
      reads this
    {
      if key in hits then hits[key] else []
    }

    method Allow(key: string, rule: RateLimitRule, now: real) returns (admitted: bool)
      modifies this
      ensures var (stored, ok) := Serve(old(Stored(key)), rule, now);
              admitted == ok && hits == old(hits)[key := stored]
    {
      var windowStart := now - rule.windowSeconds as real;
      var log := if key in hits then hits[key] else [];
      var recent: seq<real> := [];
      for i := 0 to |log|
        invariant recent == After(log[..i], windowStart)
      {
        if log[i] > windowStart {
          recent := recent + [log[i]];
        }
        assert log[..i + 1][..i] == log[..i];
      }
      assert log[..|log|] == log;
      if |recent| >= rule.maxRequests {
        hits := hits[key := recent];
        return false;
      }
      recent := recent + [now];
      hits := hits[key := recent];
      return true;
    }

    /** No earlier matching rule has a prefix as long. */
    static ghost predicate IsFirstLongest(rules: seq<RateLimitRule>, path: string, rule: RateLimitRule) {
      exists i | 0 <= i < |rules| :: rules[i] == rule
        && forall j | 0 <= j < i && rules[j].pathPrefix <= path :: |rules[j].pathPrefix| < |rule.pathPrefix|
    }

    /** The matching rule with the longest prefix, the first of them on a tie. */
    static method MatchRule(rules: seq<RateLimitRule>, path: string) returns (matched: Option<RateLimitRule>)
      ensures matched.None? <==> forall r | r in rules :: !(r.pathPrefix <= path)
      ensures matched.Some? ==>
                && matched.value in rules && matched.value.pathPrefix <= path
                && forall r | r in rules && r.pathPrefix <= path :: |r.pathPrefix| <= |matched.value.pathPrefix|
      ensures matched.Some? ==> IsFirstLongest(rules, path, matched.value)
    {
      matched := None;
      ghost var at := 0;
      for i := 0 to |rules|
        invariant matched.None? <==> forall r | r in rules[..i] :: !(r.pathPrefix <= path)
        invariant matched.Some? ==>
                    && matched.value in rules[..i] && matched.value.pathPrefix <= path
                    && forall r | r in rules[..i] && r.pathPrefix <= path ::
                       |r.pathPrefix| <= |matched.value.pathPrefix|
        invariant matched.Some? ==> at < i && rules[at] == matched.value
                                    && forall j | 0 <= j < at && rules[j].pathPrefix <= path ::
                                         |rules[j].pathPrefix| < |matched.value.pathPrefix|
      {
        assert rules[..i + 1] == rules[..i] + [rules[i]];
        if rules[i].pathPrefix <= path {
          if matched.None? || |rules[i].pathPrefix| > |matched.value.pathPrefix| {
            matched, at := Some(rules[i]), i;
          }
        }
      }
      assert rules[..|rules|] == rules;
    }
  }

  // ---- runs ----

  /** One call of Allow: the key and the clock reading. Keys embed the rule's prefix, so a key has one rule. */
  datatype Request = Request(key: string, now: real)

  /** The stored list of a key and the log of all its admitted times, after serving requests of any keys. */
  datatype KeyHistory = KeyHistory(stored: seq<real>, admitted: seq<real>)

  function History(requests: seq<Request>, key: string, rule: RateLimitRule): KeyHistory {
    if requests == [] then KeyHistory([], [])
    else
      var before := History(requests[..|requests| - 1], key, rule);
      var last := requests[|requests| - 1];
      if last.key != key then before
      else
        var (stored, ok) := Serve(before.stored, rule, last.now);
        KeyHistory(stored, if ok then before.admitted + [last.now] else before.admitted)
  }

  /** time.monotonic never runs backwards. */
  predicate Monotonic(requests: seq<Request>) {
    forall i, j | 0 <= i < j < |requests| :: requests[i].now <= requests[j].now
  }

  /** How many entries satisfy a condition. */
  function Count(log: seq<real>, p: real -> bool): nat {
    if log == [] then 0 else Count(log[..|log| - 1], p) + (if p(log[|log| - 1]) then 1 else 0)
  }

  /** Every entry was admitted with fewer than `max` earlier entries in the window that ended at it. */
  predicate Disciplined(log: seq<real>, rule: RateLimitRule) {
    log == []
    || var last := log[|log| - 1];
       Disciplined(log[..|log| - 1], rule)
       && |After(log[..|log| - 1], last - rule.windowSeconds as real)| < rule.maxRequests
  }

  lemma AfterOneMore(log: seq<real>, x: real, start: real)
    ensures After(log + [x], start) == After(log, start) + (if x > start then [x] else [])
  {
    assert (log + [x])[..|log|] == log;
  }

  /** Filtering twice with a later start is filtering once. */
  lemma {:induction false} AfterAfter(log: seq<real>, early: real, late: real)
    requires early <= late
    ensures After(After(log, early), late) == After(log, late)
  {
    if log != [] {
      var rest, x := log[..|log| - 1], log[|log| - 1];
      AfterAfter(rest, early, late);
      if x > early {
        AfterOneMore(After(rest, early), x, late);
      } else {
        assert After(log, early) == After(rest, early);
      }
    }
  }

  lemma {:induction false} AfterCounts(log: seq<real>, start: real)
    ensures |After(log, start)| == Count(log, a => a > start)
  {
    if log != [] {
      AfterCounts(log[..|log| - 1], start);
    }
  }

  lemma {:induction false} CountWeaker(log: seq<real>, p: real -> bool, q: real -> bool)
    requires forall a | a in log :: p(a) ==> q(a)
    ensures Count(log, p) <= Count(log, q)
  {
    if log != [] {
      var rest, last := log[..|log| - 1], log[|log| - 1];
      assert last in log && forall a | a in rest :: a in log;
      CountWeaker(rest, p, q);
    }
  }

  /** Instants that are pairwise less than a window apart hold at most `max` admitted requests. */
  lemma {:induction false} NarrowWindowsHoldFew(log: seq<real>, rule: RateLimitRule, window: real -> bool)
    requires Disciplined(log, rule)
    requires forall a, b :: window(a) && window(b) ==> b - a < rule.windowSeconds as real
    ensures Count(log, window) <= rule.maxRequests
  {
    if log != [] {
      var rest, last := log[..|log| - 1], log[|log| - 1];
      NarrowWindowsHoldFew(rest, rule, window);
      if window(last) {
        var start := last - rule.windowSeconds as real;
        CountWeaker(rest, window, a => a > start);
        AfterCounts(rest, start);
      }
    }
  }

  /**
   From the cut onward the stored list finds what the full log of admitted requests would find;
   the cut lies at or before the start of every later window.
   */
  ghost predicate Tracks(h: KeyHistory, rule: RateLimitRule, cut: real) {
    && (forall start :: cut <= start ==> After(h.stored, start) == After(h.admitted, start))
    && Disciplined(h.admitted, rule)
    && |h.stored| <= rule.maxRequests
  }

  /** The recent part of the stored list tracks the admitted log, also after both gain the same entry. */
  lemma RecentTracks(stored: seq<real>, admitted: seq<real>, now: real, opening: real, start: real)
    requires opening <= start && After(stored, start) == After(admitted, start)
    ensures var recent := After(stored, opening);
            && After(recent, start) == After(admitted, start)
            && After(recent + [now], start) == After(admitted + [now], start)
  {
    AfterAfter(stored, opening, start);
    AfterOneMore(After(stored, opening), now, start);
    AfterOneMore(admitted, now, start);
  }

  lemma ServeTracks(h: KeyHistory, rule: RateLimitRule, cut: real, now: real)
    requires Tracks(h, rule, cut) && cut <= now - rule.windowSeconds as real
    ensures var (stored, ok) := Serve(h.stored, rule, now);
            Tracks(KeyHistory(stored, if ok then h.admitted + [now] else h.admitted), rule,
                   now - rule.windowSeconds as real)
  {
    var opening := now - rule.windowSeconds as real;
    var recent := After(h.stored, opening);
    forall start | opening <= start
      ensures After(recent, start) == After(h.admitted, start)
      ensures After(recent + [now], start) == After(h.admitted + [now], start)
    {
      RecentTracks(h.stored, h.admitted, now, opening, start);
    }
    assert (h.admitted + [now])[..|h.admitted|] == h.admitted;
    assert recent == After(h.admitted, opening);
    AfterFits(h.stored, opening);
  }

  lemma {:induction false} HistoryTracks(requests: seq<Request>, key: string, rule: RateLimitRule, now: real)
    returns (cut: real)
    requires Monotonic(requests)
    requires forall i | 0 <= i < |requests| :: requests[i].now <= now
    ensures cut <= now - rule.windowSeconds as real && Tracks(History(requests, key, rule), rule, cut)
  {
    cut := now - rule.windowSeconds as real;
    if requests != [] {
      var rest, last := requests[..|requests| - 1], requests[|requests| - 1];
      cut := HistoryTracks(rest, key, rule, last.now);
      if last.key == key {
        ServeTracks(History(rest, key, rule), rule, cut, last.now);
        cut := last.now - rule.windowSeconds as real;
      }
    }
  }

  /**
   Over a whole run with other keys in between, at most `max` requests of a key are admitted in any half-open
   window of the rule's length, whichever end is open, and the stored list never exceeds the limit.
   */
  lemma AdmittedPerWindow(requests: seq<Request>, key: string, rule: RateLimitRule, x: real)
    requires Monotonic(requests)
    ensures var h := History(requests, key, rule);
            var w := rule.windowSeconds as real;
            && Count(h.admitted, a => x < a <= x + w) <= rule.maxRequests
            && Count(h.admitted, a => x <= a < x + w) <= rule.maxRequests
            && |h.stored| <= rule.maxRequests
  {
    var h := History(requests, key, rule);
    var w := rule.windowSeconds as real;
    var cut := HistoryTracks(requests, key, rule, if requests == [] then 0.0 else requests[|requests| - 1].now);
    NarrowWindowsHoldFew(h.admitted, rule, a => x < a <= x + w);
    NarrowWindowsHoldFew(h.admitted, rule, a => x <= a < x + w);
  }

  /** A request is refused exactly when `max` admitted requests lie in the window that ends now. */
  lemma RefusedIffWindowFull(requests: seq<Request>, key: string, rule: RateLimitRule, now: real)
    requires Monotonic(requests)
    requires forall i | 0 <= i < |requests| :: requests[i].now <= now
    ensures var h := History(requests, key, rule);
            !Serve(h.stored, rule, now).1
            <==> Count(h.admitted, a => a > now - rule.windowSeconds as real) == rule.maxRequests
  {
    var h := History(requests, key, rule);
    var start := now - rule.windowSeconds as real;
    var cut := HistoryTracks(requests, key, rule, now);
    AfterCounts(h.admitted, start);
    AfterFits(h.stored, start);
  }

  lemma {:induction false} AfterFits(log: seq<real>, start: real)
    ensures |After(log, start)| <= |log|
  {
    if log != [] {
      AfterFits(log[..|log| - 1], start);
    }
  }

  lemma HistoryNext(requests: seq<Request>, n: nat, key: string, rule: RateLimitRule)
    requires n < |requests|
    ensures var before, after := History(requests[..n], key, rule), History(requests[..n + 1], key, rule);
            after.stored == if requests[n].key == key then Serve(before.stored, rule, requests[n].now).0
            else before.stored
  {
    assert requests[..n + 1][..n] == requests[..n];
  }

  /** The limiter stores every key's history. */
  ghost predicate Mirrors(limiter: RateLimitMiddleware, requests: seq<Request>, ruleOf: string -> RateLimitRule)
    reads limiter
  {
    forall key :: limiter.Stored(key) == History(requests, key, ruleOf(key)).stored
  }

  /** Request i is answered from the history of its key. */
  predicate AnswerOk(requests: seq<Request>, ruleOf: string -> RateLimitRule, i: nat, ok: bool)
    requires i < |requests|
  {
    var r := requests[i];
    ok == Serve(History(requests[..i], r.key, ruleOf(r.key)).stored, ruleOf(r.key), r.now).1
  }

  predicate AnswersOk(requests: seq<Request>, ruleOf: string -> RateLimitRule, answers: seq<bool>) {
    |answers| <= |requests| && forall i | 0 <= i < |answers| :: AnswerOk(requests, ruleOf, i, answers[i])
  }

  lemma AnswersGrow(requests: seq<Request>, ruleOf: string -> RateLimitRule, answers: seq<bool>, ok: bool)
    requires AnswersOk(requests, ruleOf, answers) && |answers| < |requests| && AnswerOk(requests, ruleOf, |answers|, ok)
    ensures AnswersOk(requests, ruleOf, answers + [ok])
  {
    forall i | 0 <= i < |answers + [ok]|
      ensures AnswerOk(requests, ruleOf, i, (answers + [ok])[i])
    {
      assert i < |answers| ==> AnswerOk(requests, ruleOf, i, answers[i]);
    }
  }

  method ServeOne(limiter: RateLimitMiddleware, requests: seq<Request>, n: nat, ruleOf: string -> RateLimitRule)
    returns (ok: bool)
    requires n < |requests| && Mirrors(limiter, requests[..n], ruleOf)
    modifies limiter
    ensures Mirrors(limiter, requests[..n + 1], ruleOf) && AnswerOk(requests, ruleOf, n, ok)
  {
    var r := requests[n];
    ok := limiter.Allow(r.key, ruleOf(r.key), r.now);
    forall key
      ensures limiter.Stored(key) == History(requests[..n + 1], key, ruleOf(key)).stored
    {
      assert old(limiter.Stored(key)) == History(requests[..n], key, ruleOf(key)).stored;
      HistoryNext(requests, n, key, ruleOf(key));
    }
  }

  /** The middleware over a whole run: what it stores for every key is that key's history. */
  method ServeAll(requests: seq<Request>, ruleOf: string -> RateLimitRule)
    returns (limiter: RateLimitMiddleware, answers: seq<bool>)
    ensures fresh(limiter) && Mirrors(limiter, requests, ruleOf)
    ensures |answers| == |requests| && AnswersOk(requests, ruleOf, answers)
  {
    limiter := new RateLimitMiddleware();
    answers := [];
    for n := 0 to |requests|
      invariant fresh(limiter) && Mirrors(limiter, requests[..n], ruleOf)
      invariant |answers| == n && AnswersOk(requests, ruleOf, answers)
    {
      var ok := ServeOne(limiter, requests, n, ruleOf);
      AnswersGrow(requests, ruleOf, answers, ok);
      answers := answers + [ok];
    }
    assert requests[..|requests|] == requests;
  }
}
