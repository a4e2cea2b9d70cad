/** The correlation layer's view of an alert and of an emitted group. */
module Alerts {

  /** Labels and annotations ride along unread by the correlator and are not part of the model. */
  datatype Alert = Alert(
    id: string,
    fingerprint: string,
    alertName: string,
    severity: string,
    service: string,
    namespace: string,
    instance: string,
    startsAt: int)

  predicate Within(places: seq<nat>, n: nat) {
    forall k :: 0 <= k < |places| ==> places[k] < n
  }

  predicate Ascending(places: seq<nat>) {
    forall a, b :: 0 <= a < b < |places| ==> places[a] < places[b]
  }

  /** The elements of s at the given places. */
  function At<T>(s: seq<T>, places: seq<nat>): seq<T>
    requires Within(places, |s|)
  {
    seq(|places|, k requires 0 <= k < |places| => s[places[k]])
  }

  function Concat<T>(ss: seq<seq<T>>): seq<T> {
    if ss == [] then [] else Concat(ss[..|ss| - 1]) + ss[|ss| - 1]
  }

  /** Which of the sequences element k of their concatenation comes from. */
  function Owner<T>(ss: seq<seq<T>>, k: nat): (c: nat)
    requires k < |Concat(ss)|
    ensures c < |ss|
  {
    var init := ss[..|ss| - 1];
    if k < |Concat(init)| then Owner(init, k) else |ss| - 1
  }

  lemma {:induction false} OwnerHolds<T>(ss: seq<seq<T>>, k: nat)
    requires k < |Concat(ss)|
    ensures var c := Owner(ss, k); var start := |Concat(ss[..c])|;
      start <= k < start + |ss[c]| && Concat(ss)[k] == ss[c][k - start]
  {
    var init := ss[..|ss| - 1];
    if k < |Concat(init)| {
      OwnerHolds(init, k);
      assert init[..Owner(init, k)] == ss[..Owner(init, k)];
    }
  }

  lemma {:induction false} OwnersAscend<T>(ss: seq<seq<T>>, a: nat, b: nat)
    requires a <= b < |Concat(ss)|
    ensures Owner(ss, a) <= Owner(ss, b)
  {
    var init := ss[..|ss| - 1];
    if b < |Concat(init)| {
      OwnersAscend(init, a, b);
    }
  }

  /** Everything held by a sequence of sequences, with multiplicities. */
  function Contents<T>(ss: seq<seq<T>>): multiset<T> {
    if ss == [] then multiset{} else Contents(ss[..|ss| - 1]) + multiset(ss[|ss| - 1])
  }

  lemma ContentsSnoc<T>(ss: seq<seq<T>>, s: seq<T>)
    ensures Contents(ss + [s]) == Contents(ss) + multiset(s)
  {
    assert (ss + [s])[..|ss|] == ss;
  }

  lemma {:induction false} ContentsGrow<T>(ss: seq<seq<T>>, k: nat, x: T)
    requires k < |ss|
    ensures Contents(ss[k := ss[k] + [x]]) == Contents(ss) + multiset{x}
  {
    var init, last := ss[..|ss| - 1], ss[|ss| - 1];
    if k == |ss| - 1 {
      assert ss[k := last + [x]] == init + [last + [x]];
      ContentsSnoc(init, last + [x]);
    } else {
      ContentsGrow(init, k, x);
      assert ss[k := ss[k] + [x]] == init[k := init[k] + [x]] + [last];
      ContentsSnoc(init[k := init[k] + [x]], last);
    }
  }

  lemma {:induction false} ContentsAppend<T>(a: seq<seq<T>>, b: seq<seq<T>>)
    ensures Contents(a + b) == Contents(a) + Contents(b)
  {
    if b == [] {
      assert a + b == a;
    } else {
      var init, last := b[..|b| - 1], b[|b| - 1];
      ContentsAppend(a, init);
      assert a + b == (a + init) + [last];
      ContentsSnoc(a + init, last);
    }
  }

  /** Cutting the sequences into pieces and lining up all pieces keeps what they hold. */
  lemma {:induction false} ContentsOfPieces<T>(pieces: seq<seq<seq<T>>>, ss: seq<seq<T>>)
    requires |pieces| == |ss| && forall c :: 0 <= c < |ss| ==> Contents(pieces[c]) == multiset(ss[c])
    ensures Contents(Concat(pieces)) == Contents(ss)
  {
    if ss == [] {
    } else {
      var n := |ss| - 1;
      ContentsOfPieces(pieces[..n], ss[..n]);
      ContentsAppend(Concat(pieces[..n]), pieces[n]);
    }
  }
}
