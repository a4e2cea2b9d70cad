/** The alert deduplicator and the accept loop of the webhook handler. Times are integers; `now`
    is the value of `time.Now()` in the call. */
module Dedup {
  import opened Options
  import opened TimeWindow

  class Deduplicator {
    const window: int
    var seen: map<string, int>

    constructor (window: int)
      ensures this.window == window && seen == map[]
    {
      this.window := window;
      seen := map[];
    }

    method IsDuplicate(fingerprint: string, startsAt: int) returns (duplicate: bool)
      ensures duplicate <==> !Takes(window, seen, fingerprint, Some(startsAt))
      ensures duplicate <==> fingerprint in seen && startsAt - seen[fingerprint] < window
    {
      if fingerprint !in seen {
        return false;
      }
      duplicate := startsAt - seen[fingerprint] < window;
    }

    method MarkSeen(fingerprint: string, now: int)
      modifies this
      ensures seen == old(seen)[fingerprint := now]
    {
      seen := seen[fingerprint := now];
    }

    /** The keys are visited in any order. */
    method EvictExpired(now: int)
      modifies this
      ensures seen == Next(window, old(seen), Sweep(now))
      ensures forall key :: key in seen <==> key in old(seen) && old(seen)[key] >= now - window
      ensures forall key :: key in seen ==> seen[key] == old(seen)[key]
    {
      var cutoff := now - window;
      var todo := seen.Keys;
      while todo != {}
        invariant todo <= old(seen).Keys
        invariant seen == map key | key in old(seen) && (key in todo || old(seen)[key] >= cutoff) :: old(seen)[key]
        decreases |todo|
      {
        var fingerprint :| fingerprint in todo;
        if seen[fingerprint] < cutoff {
          seen := seen - {fingerprint};
        }
        todo := todo - {fingerprint};
      }
    }
  }

  datatype Incoming = Incoming(firing: bool, severity: string, fingerprint: string, startsAt: int)

  /** What the handler meets while it looks at one alert: the clock, and whether an id is made and
      the record saved. */
  datatype Turn = Turn(now: int, saved: bool)

  predicate Eligible(filter: set<string>, a: Incoming) {
    a.firing && (filter == {} || a.severity in filter)
  }

  /** The offers the accept loop makes. */
  function Offers(filter: set<string>, alerts: seq<Incoming>, turns: seq<Turn>): seq<Event>
    requires |turns| == |alerts|
    decreases |alerts|
  {
    if alerts == [] then []
    else
      var n, a := |alerts| - 1, alerts[|alerts| - 1];
      var before := Offers(filter, alerts[..n], turns[..n]);
      if Eligible(filter, a) then before + [Offer(a.fingerprint, Some(a.startsAt), turns[n].now)] else before
  }

  /** Alert k gets past the filters and the deduplicator. */
  predicate Admitted(window: int, filter: set<string>, seen: Seen, alerts: seq<Incoming>, turns: seq<Turn>, k: nat)
    requires |turns| == |alerts|
  {
    && k < |alerts| && Eligible(filter, alerts[k])
    && var known := After(window, seen, Offers(filter, alerts[..k], turns[..k]));
       Takes(window, known, alerts[k].fingerprint, Some(alerts[k].startsAt))
  }

  /** The positions of the alerts handed on: the admitted ones that were saved. */
  function Persisted(window: int, filter: set<string>, seen: Seen, alerts: seq<Incoming>, turns: seq<Turn>): seq<nat>
    requires |turns| == |alerts|
    decreases |alerts|
  {
    if alerts == [] then []
    else
      var n := |alerts| - 1;
      var before := Persisted(window, filter, seen, alerts[..n], turns[..n]);
      if Admitted(window, filter, seen, alerts, turns, n) && turns[n].saved then before + [n] else before
  }

  lemma AdmittedPrefix(window: int, filter: set<string>, seen: Seen, alerts: seq<Incoming>, turns: seq<Turn>, n: nat,
          k: nat)
    requires |turns| == |alerts| && k < n <= |alerts|
    ensures Admitted(window, filter, seen, alerts[..n], turns[..n], k)
      <==> Admitted(window, filter, seen, alerts, turns, k)
  {
    assert alerts[..n][..k] == alerts[..k] && turns[..n][..k] == turns[..k];
  }

  /** Exactly the admitted and saved alerts are handed on, once each and in order. */
  lemma {:induction false} PersistedIff(window: int, filter: set<string>, seen: Seen, alerts: seq<Incoming>,
          turns: seq<Turn>, k: nat)
    requires |turns| == |alerts|
    ensures var ps := Persisted(window, filter, seen, alerts, turns);
      (k in ps <==> Admitted(window, filter, seen, alerts, turns, k) && turns[k].saved)
      && (forall i :: 0 <= i < |ps| ==> ps[i] < |alerts|)
      && forall i, j :: 0 <= i < j < |ps| ==> ps[i] < ps[j]
    decreases |alerts|
  {
    if alerts == [] {
    } else {
      var n := |alerts| - 1;
      PersistedIff(window, filter, seen, alerts[..n], turns[..n], k);
      if k < n { AdmittedPrefix(window, filter, seen, alerts, turns, n, k); }
    }
  }

  /** Only firing alerts of a listed severity are handed on, and only when they were saved. */
  lemma PersistedAreEligible(window: int, filter: set<string>, seen: Seen, alerts: seq<Incoming>, turns: seq<Turn>)
    requires |turns| == |alerts|
    ensures var ps := Persisted(window, filter, seen, alerts, turns);
      && (forall k :: k in ps ==> k < |alerts| && alerts[k].firing && turns[k].saved)
      && forall k :: k in ps && k < |alerts| ==> filter == {} || alerts[k].severity in filter
  {
    forall k | k in Persisted(window, filter, seen, alerts, turns)
      ensures k < |alerts| && alerts[k].firing && turns[k].saved && (filter == {} || alerts[k].severity in filter)
    {
      PersistedIff(window, filter, seen, alerts, turns, k);
    }
  }

  /** What the next alert adds to the offers and to the positions handed on. */
  lemma OneMoreOffer(window: int, filter: set<string>, seen: Seen, alerts: seq<Incoming>, turns: seq<Turn>, i: nat)
    requires |turns| == |alerts| && i < |alerts|
    ensures var known, a := After(window, seen, Offers(filter, alerts[..i], turns[..i])), alerts[i];
      After(window, seen, Offers(filter, alerts[..i + 1], turns[..i + 1])) ==
        if Eligible(filter, a) then Next(window, known, Offer(a.fingerprint, Some(a.startsAt), turns[i].now)) else known
    ensures var known, a := After(window, seen, Offers(filter, alerts[..i], turns[..i])), alerts[i];
      var before := Persisted(window, filter, seen, alerts[..i], turns[..i]);
      Persisted(window, filter, seen, alerts[..i + 1], turns[..i + 1]) ==
        if Eligible(filter, a) && Takes(window, known, a.fingerprint, Some(a.startsAt)) && turns[i].saved
        then before + [i] else before
  {
    assert alerts[..i + 1][..i] == alerts[..i] && turns[..i + 1][..i] == turns[..i];
    var offers := Offers(filter, alerts[..i], turns[..i]);
    var offer := Offer(alerts[i].fingerprint, Some(alerts[i].startsAt), turns[i].now);
    assert (offers + [offer])[..|offers|] == offers;
  }

  class Handler {
    const dedup: Deduplicator
    const severityFilter: set<string>

    constructor (dedup: Deduplicator, severityFilter: set<string>)
      ensures this.dedup == dedup && this.severityFilter == severityFilter
    {
      this.dedup, this.severityFilter := dedup, severityFilter;
    }

    /** The checks on one alert: filters, then check and mark. */
    method Admit(a: Incoming, now: int) returns (admitted: bool)
      modifies dedup
      ensures admitted <==>
        Eligible(severityFilter, a) && Takes(dedup.window, old(dedup.seen), a.fingerprint, Some(a.startsAt))
      ensures dedup.seen ==
        if Eligible(severityFilter, a)
          then Next(dedup.window, old(dedup.seen), Offer(a.fingerprint, Some(a.startsAt), now))
        else old(dedup.seen)
    {
      if !a.firing {
        return false;
      }
      if severityFilter != {} && a.severity !in severityFilter {
        return false;
      }
      var duplicate := dedup.IsDuplicate(a.fingerprint, a.startsAt);
      if duplicate {
        return false;
      }
      dedup.MarkSeen(a.fingerprint, now);
      admitted := true;
    }

    /** An admitted alert is marked as seen whether or not it is saved. */
    method HandleWebhook(alerts: seq<Incoming>, turns: seq<Turn>) returns (persisted: seq<nat>)
      requires |turns| == |alerts|
      modifies dedup
      ensures dedup.seen == After(dedup.window, old(dedup.seen), Offers(severityFilter, alerts, turns))
      ensures persisted == Persisted(dedup.window, severityFilter, old(dedup.seen), alerts, turns)
      ensures forall k :: k in persisted ==> k < |alerts| && alerts[k].firing && turns[k].saved
      ensures severityFilter != {} ==>
        forall k :: k in persisted && k < |alerts| ==> alerts[k].severity in severityFilter
    {
      ghost var seen := dedup.seen;
      persisted := [];
      for i := 0 to |alerts|
        invariant dedup.seen == After(dedup.window, old(dedup.seen), Offers(severityFilter, alerts[..i], turns[..i]))
        invariant persisted == Persisted(dedup.window, severityFilter, old(dedup.seen), alerts[..i], turns[..i])
      {
        OneMoreOffer(dedup.window, severityFilter, old(dedup.seen), alerts, turns, i);
        var admitted := Admit(alerts[i], turns[i].now);
        if !admitted {
          continue;
        }
        if !turns[i].saved {
          continue;
        }
        persisted := persisted + [i];
      }
      assert alerts[..|alerts|] == alerts && turns[..|turns|] == turns;
      PersistedAreEligible(dedup.window, severityFilter, seen, alerts, turns);
    }
  }

  /** The table the handler has in front of alert k. */
  function KnownAt(window: int, filter: set<string>, seen: Seen, alerts: seq<Incoming>, turns: seq<Turn>, k: nat): Seen
    requires k <= |alerts| == |turns|
  {
    After(window, seen, Offers(filter, alerts[..k], turns[..k]))
  }

  /** Alert i gets through and is about this fingerprint. */
  predicate AdmittedAs(window: int, filter: set<string>, seen: Seen, alerts: seq<Incoming>, turns: seq<Turn>, i: nat,
          fingerprint: string)
    requires |turns| == |alerts|
  {
    Admitted(window, filter, seen, alerts, turns, i) && alerts[i].fingerprint == fingerprint
  }

  lemma KnownNext(window: int, filter: set<string>, seen: Seen, alerts: seq<Incoming>, turns: seq<Turn>, k: nat)
    requires k < |alerts| == |turns|
    ensures KnownAt(window, filter, seen, alerts, turns, k + 1) ==
      var known := KnownAt(window, filter, seen, alerts, turns, k);
      if Admitted(window, filter, seen, alerts, turns, k) then known[alerts[k].fingerprint := turns[k].now] else known
  {
    OneMoreOffer(window, filter, seen, alerts, turns, k);
  }

  lemma {:induction false} NotYetAdmitted(window: int, filter: set<string>, seen: Seen, alerts: seq<Incoming>,
          turns: seq<Turn>, k: nat, fingerprint: string)
    requires k <= |alerts| == |turns|
    requires forall i: nat :: i < k ==> !AdmittedAs(window, filter, seen, alerts, turns, i, fingerprint)
    ensures var known := KnownAt(window, filter, seen, alerts, turns, k);
      && (fingerprint in known <==> fingerprint in seen)
      && (fingerprint in known ==> known[fingerprint] == seen[fingerprint])
  {
    if k == 0 {
    } else {
      NotYetAdmitted(window, filter, seen, alerts, turns, k - 1, fingerprint);
      KnownNext(window, filter, seen, alerts, turns, k - 1);
      assert !AdmittedAs(window, filter, seen, alerts, turns, k - 1, fingerprint);
    }
  }

  lemma {:induction false} LastAdmitted(window: int, filter: set<string>, seen: Seen, alerts: seq<Incoming>,
          turns: seq<Turn>, i: nat, k: nat, fingerprint: string)
    requires i < k <= |alerts| == |turns| && AdmittedAs(window, filter, seen, alerts, turns, i, fingerprint)
    requires forall m: nat :: i < m < k ==> !AdmittedAs(window, filter, seen, alerts, turns, m, fingerprint)
    ensures var known := KnownAt(window, filter, seen, alerts, turns, k);
      fingerprint in known && known[fingerprint] == turns[i].now
    decreases k
  {
    KnownNext(window, filter, seen, alerts, turns, k - 1);
    if i < k - 1 {
      LastAdmitted(window, filter, seen, alerts, turns, i, k - 1, fingerprint);
      assert !AdmittedAs(window, filter, seen, alerts, turns, k - 1, fingerprint);
    }
  }

  /** The first alert of a request about its fingerprint gets through exactly when it fires, has a
      listed severity, and starts a window or more after the last mark, if there is one. */
  lemma FirstAdmittedIff(window: int, filter: set<string>, seen: Seen, alerts: seq<Incoming>, turns: seq<Turn>, k: nat)
    requires k < |alerts| == |turns|
    requires forall i: nat :: i < k ==> !AdmittedAs(window, filter, seen, alerts, turns, i, alerts[k].fingerprint)
    ensures Admitted(window, filter, seen, alerts, turns, k) <==>
      var a := alerts[k];
      a.firing && (filter == {} || a.severity in filter)
      && (a.fingerprint !in seen || a.startsAt - seen[a.fingerprint] >= window)
  {
    NotYetAdmitted(window, filter, seen, alerts, turns, k, alerts[k].fingerprint);
  }

  /** A later one, behind alert i that got through last: exactly when it starts a window or more after
      alert i was marked. */
  lemma AdmittedAgainIff(window: int, filter: set<string>, seen: Seen, alerts: seq<Incoming>, turns: seq<Turn>, i: nat,
          k: nat)
    requires i < k < |alerts| == |turns|
    requires AdmittedAs(window, filter, seen, alerts, turns, i, alerts[k].fingerprint)
    requires forall m: nat :: i < m < k ==> !AdmittedAs(window, filter, seen, alerts, turns, m, alerts[k].fingerprint)
    ensures Admitted(window, filter, seen, alerts, turns, k) <==>
      alerts[k].firing && (filter == {} || alerts[k].severity in filter)
      && alerts[k].startsAt - turns[i].now >= window
  {
    LastAdmitted(window, filter, seen, alerts, turns, i, k, alerts[k].fingerprint);
  }

  /** An alert that claims to start a window ahead of the clock is accepted twice at once. */
  lemma FutureStartIsTakenTwice(window: int, fingerprint: string, now: int)
    ensures var again := Offer(fingerprint, Some(now + window), now);
      TakenAt(window, map[], [again, again], 0, fingerprint) && TakenAt(window, map[], [again, again], 1, fingerprint)
  {
    var again := Offer(fingerprint, Some(now + window), now);
    AfterStep(window, map[], [again, again], 0);
  }

  /** One firing episode offered again and again keeps its start: accepted twice, the second
      time is more than a window later. */
  lemma EpisodeReturnsLate(window: nat, events: seq<Event>, i: nat, j: nat, fingerprint: string)
    requires Monotone(events) && NoFuture(events) && i < j && window > 0
    requires TakenAt(window, map[], events, i, fingerprint) && TakenAt(window, map[], events, j, fingerprint)
    requires events[i].reference.Some? && events[j].reference == events[i].reference
    ensures events[j].now - events[i].now > window
  {
    TakingsApart(window, map[], events, i, j, fingerprint);
  }
}
