/** Keys that are taken once per time window: the runs the alert deduplicator and the Lark event
    claims have in common. The clock values of a run never go back. */
module TimeWindow {
  import opened Options

  /** An offer of a key, taken or turned down; or a sweep that forgets old keys. reference is what
      the age of the last taking is measured from; None turns down any key still known. */
  datatype Event = Offer(key: string, reference: Option<int>, now: int) | Sweep(now: int)

  type Seen = map<string, int>

  predicate Takes(window: int, seen: Seen, key: string, reference: Option<int>) {
    key !in seen || (reference.Some? && reference.value - seen[key] >= window)
  }

  function Swept(seen: Seen, cutoff: int): Seen {
    map key | key in seen && seen[key] >= cutoff :: seen[key]
  }

  function Next(window: int, seen: Seen, e: Event): Seen {
    match e
    case Offer(key, reference, now) => if Takes(window, seen, key, reference) then seen[key := now] else seen
    case Sweep(now) => Swept(seen, now - window)
  }

  /** What is known after the events, from `seen` on. */
  function After(window: int, seen: Seen, events: seq<Event>): Seen
    decreases |events|
  {
    if events == [] then seen else Next(window, After(window, seen, events[..|events| - 1]), events[|events| - 1])
  }

  lemma {:induction false} AfterConcat(window: int, seen: Seen, a: seq<Event>, b: seq<Event>)
    ensures After(window, seen, a + b) == After(window, After(window, seen, a), b)
    decreases |b|
  {
    if b == [] {
      assert a + b == a;
    } else {
      assert (a + b)[..|a + b| - 1] == a + b[..|b| - 1];
      AfterConcat(window, seen, a, b[..|b| - 1]);
    }
  }

  /** Event k takes the key. */
  predicate TakenAt(window: int, seen: Seen, events: seq<Event>, k: nat, key: string) {
    && k < |events| && events[k].Offer? && events[k].key == key
    && Takes(window, After(window, seen, events[..k]), key, events[k].reference)
  }

  predicate Monotone(events: seq<Event>) {
    forall i, j :: 0 <= i <= j < |events| ==> events[i].now <= events[j].now
  }

  /** Since it was taken at event i, the key is still known with that time or a later one, or a
      sweep more than a window later has come by. */
  predicate Remembers(window: int, seen: Seen, events: seq<Event>, i: nat, k: nat, key: string)
    requires i < k <= |events|
  {
    var table := After(window, seen, events[..k]);
    (key in table && table[key] >= events[i].now) || events[k - 1].now - events[i].now > window
  }

  lemma AfterStep(window: int, seen: Seen, events: seq<Event>, k: nat)
    requires k < |events|
    ensures After(window, seen, events[..k + 1]) == Next(window, After(window, seen, events[..k]), events[k])
  {
    assert events[..k + 1][..k] == events[..k];
  }

  lemma {:induction false} TakenIsRemembered(window: int, seen: Seen, events: seq<Event>, i: nat, k: nat, key: string)
    requires Monotone(events) && TakenAt(window, seen, events, i, key) && i < k <= |events|
    ensures Remembers(window, seen, events, i, k, key)
    decreases k
  {
    AfterStep(window, seen, events, k - 1);
    if i < k - 1 {
      TakenIsRemembered(window, seen, events, i, k - 1, key);
      assert events[k - 2].now <= events[k - 1].now && events[i].now <= events[k - 1].now;
    }
  }

  /** Two takings of one key are at least a window apart, whatever sweeps come between them, when
      the later offer's reference is not in the future. Without a reference, or with one that is
      not a window past the first taking, they are more than a window apart. */
  lemma TakingsApart(window: int, seen: Seen, events: seq<Event>, i: nat, j: nat, key: string)
    requires Monotone(events) && i < j
    requires TakenAt(window, seen, events, i, key) && TakenAt(window, seen, events, j, key)
    requires events[j].reference.Some? ==> events[j].reference.value <= events[j].now
    ensures events[j].now - events[i].now >= window
    ensures events[j].reference.None? || events[j].reference.value < events[i].now + window ==>
      events[j].now - events[i].now > window
  {
    TakenIsRemembered(window, seen, events, i, j, key);
    assert events[j - 1].now <= events[j].now;
  }

  /** A sweep between events i and k found event i's time older than a window. */
  predicate SweptBetween(window: int, events: seq<Event>, i: nat, k: nat)
    requires i < k <= |events|
  {
    exists m :: i < m < k && events[m].Sweep? && events[i].now < events[m].now - window
  }

  lemma {:induction false} EntrySince(window: int, seen: Seen, events: seq<Event>, i: nat, k: nat, key: string)
    requires TakenAt(window, seen, events, i, key) && i < k <= |events|
    requires forall m: nat :: i < m < k ==> !TakenAt(window, seen, events, m, key)
    ensures var table := After(window, seen, events[..k]);
      (key in table <==> !SweptBetween(window, events, i, k)) && (key in table ==> table[key] == events[i].now)
    decreases k
  {
    AfterStep(window, seen, events, k - 1);
    if i < k - 1 {
      EntrySince(window, seen, events, i, k - 1, key);
      assert !TakenAt(window, seen, events, k - 1, key);
      assert SweptBetween(window, events, i, k) <==>
        SweptBetween(window, events, i, k - 1) || (events[k - 1].Sweep? && events[i].now < events[k - 1].now - window);
    }
  }

  /** When exactly a key is taken again: after a sweep past its window, or with a reference a
      window past the last taking. No assumption on the clock. */
  lemma TakenAgainIff(window: int, seen: Seen, events: seq<Event>, i: nat, j: nat, key: string)
    requires TakenAt(window, seen, events, i, key) && i < j < |events|
    requires forall m: nat :: i < m < j ==> !TakenAt(window, seen, events, m, key)
    requires events[j].Offer? && events[j].key == key
    ensures TakenAt(window, seen, events, j, key) <==>
      SweptBetween(window, events, i, j)
      || (events[j].reference.Some? && events[j].reference.value - events[i].now >= window)
  {
    EntrySince(window, seen, events, i, j, key);
  }

  /** How often the key is taken in events from..to-1. */
  function Takings(window: int, seen: Seen, events: seq<Event>, key: string, from: nat, to: nat): nat
    requires from <= to <= |events|
  {
    if from == to then 0
    else Takings(window, seen, events, key, from, to - 1) + if TakenAt(window, seen, events, to - 1, key) then 1 else 0
  }

  predicate NoFuture(events: seq<Event>) {
    forall k :: 0 <= k < |events| && events[k].Offer? && events[k].reference.Some? ==>
      events[k].reference.value <= events[k].now
  }

  lemma Distribute(n: int, w: int)
    ensures n * w == (n - 1) * w + w
  {
  }

  lemma {:induction false} TakingsSpread(window: int, seen: Seen, events: seq<Event>, key: string, from: nat, to: nat)
    returns (first: nat, last: nat)
    requires Monotone(events) && NoFuture(events) && from <= to <= |events|
    requires Takings(window, seen, events, key, from, to) > 0
    ensures from <= first <= last < to
    ensures TakenAt(window, seen, events, first, key) && TakenAt(window, seen, events, last, key)
    ensures events[last].now - events[first].now >= (Takings(window, seen, events, key, from, to) - 1) * window
  {
    var before := Takings(window, seen, events, key, from, to - 1);
    if before == 0 {
      first, last := to - 1, to - 1;
    } else {
      first, last := TakingsSpread(window, seen, events, key, from, to - 1);
      if TakenAt(window, seen, events, to - 1, key) {
        TakingsApart(window, seen, events, last, to - 1, key);
        last := to - 1;
        Distribute(before, window);
      }
    }
  }

  lemma ScaleUp(a: int, b: int, w: nat)
    requires a >= b
    ensures a * w >= b * w
  {
  }

  lemma QuotientBound(n: nat, window: int, length: nat)
    requires window > 0 && n > 0 && (n - 1) * window <= length
    ensures n <= length / window + 1
  {
    assert length < (length / window + 1) * window;
    if n - 1 >= length / window + 1 { ScaleUp(n - 1, length / window + 1, window); }
  }

  /** In any stretch of time of the given length a key is taken at most length / window + 1 times. */
  lemma TakingsBound(window: int, seen: Seen, events: seq<Event>, key: string, from: nat, to: nat, length: nat)
    requires window > 0 && Monotone(events) && NoFuture(events) && from <= to <= |events|
    requires forall i, j :: from <= i <= j < to ==> events[j].now - events[i].now <= length
    ensures Takings(window, seen, events, key, from, to) <= length / window + 1
  {
    var n := Takings(window, seen, events, key, from, to);
    if n > 0 {
      var first, last := TakingsSpread(window, seen, events, key, from, to);
      QuotientBound(n, window, length);
    }
  }
}
