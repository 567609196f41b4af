/** Recommended instruments and their ranking. The source ranks the
    candidate list with Python's stable sort, keyed on score, descending;
    that library sort is modelled here by a stable insertion sort, pinned
    down by three properties: sorted by score, a permutation of its input,
    and the same relative order among equal scores. */
module Ranking {

  /** The instrument catalogue. */
  datatype Kind = Elss | Nps | HealthInsurance | Sukanya | HomeLoan

  datatype Instrument = Instrument(kind: Kind, suggestedAmount: int, estimatedTaxSave: int, score: int)

  /** Section of the Income-tax Act, 1961 under which each instrument is claimed. */
  function Section(k: Kind): string {
    match k
    case Elss => "80C"
    case Nps => "80CCD(1B)"
    case HealthInsurance => "80D"
    case Sukanya => "80C"
    case HomeLoan => "24(b)"
  }

  /** ELSS and Sukanya are the two instruments that share the 80C limit. */
  lemma SharedSection80C(k: Kind)
    ensures Section(k) == "80C" <==> k == Elss || k == Sukanya
  {
  }

  predicate SortedByScoreDesc(s: seq<Instrument>) {
    forall i, j :: 0 <= i < j < |s| ==> s[i].score >= s[j].score
  }

  /** The instruments with score `k`, in the order they appear. */
  function WithScore(s: seq<Instrument>, k: int): seq<Instrument>
    decreases |s|
  {
    if s == [] then []
    else (if s[0].score == k then [s[0]] else []) + WithScore(s[1..], k)
  }

  /** Place `x` after every instrument scoring strictly more and before the rest. */
  function Insert(x: Instrument, t: seq<Instrument>): seq<Instrument>
    decreases |t|
  {
    if t == [] then [x]
    else if x.score >= t[0].score then [x] + t
    else [t[0]] + Insert(x, t[1..])
  }

  /** Stable sort by score, highest first. */
  function SortByScore(s: seq<Instrument>): seq<Instrument>
    decreases |s|
  {
    if s == [] then [] else Insert(s[0], SortByScore(s[1..]))
  }

  /** The first `n` instruments (a list slice `[:n]`). */
  function Top(s: seq<Instrument>, n: nat): (r: seq<Instrument>)
    ensures |r| == if |s| <= n then |s| else n
    ensures r == s[..|r|]
  {
    if |s| <= n then s else s[..n]
  }

  lemma {:induction false} InsertPermutes(x: Instrument, t: seq<Instrument>)
    ensures multiset(Insert(x, t)) == multiset(t) + multiset{x}
    decreases |t|
  {
    if t != [] && x.score < t[0].score {
      InsertPermutes(x, t[1..]);
      assert t == [t[0]] + t[1..];
    }
  }

  lemma {:induction false} InsertSorted(x: Instrument, t: seq<Instrument>)
    requires SortedByScoreDesc(t)
    ensures SortedByScoreDesc(Insert(x, t))
    decreases |t|
  {
    if t != [] && x.score < t[0].score {
      var rest := Insert(x, t[1..]);
      InsertSorted(x, t[1..]);
      InsertPermutes(x, t[1..]);
      forall j | 0 <= j < |rest|
        ensures t[0].score >= rest[j].score
      {
        assert rest[j] in multiset(rest);
        if rest[j] != x {
          assert rest[j] in multiset(t[1..]);
          var m :| 0 <= m < |t[1..]| && t[1..][m] == rest[j];
          assert t[1 + m] == rest[j];
        }
      }
    }
  }

  /** Inserting `x` puts it ahead of every instrument of equal score. */
  lemma {:induction false} InsertWithScore(x: Instrument, t: seq<Instrument>, k: int)
    ensures WithScore(Insert(x, t), k) == (if x.score == k then [x] else []) + WithScore(t, k)
    decreases |t|
  {
    var here := if x.score == k then [x] else [];
    if t == [] {
      assert [x][1..] == [];
      assert WithScore([x], k) == here + WithScore([], k);
    } else if x.score >= t[0].score {
      assert ([x] + t)[0] == x && ([x] + t)[1..] == t;
      assert WithScore([x] + t, k) == here + WithScore(t, k);
    } else {
      var rest := Insert(x, t[1..]);
      var head := if t[0].score == k then [t[0]] else [];
      InsertWithScore(x, t[1..], k);
      assert ([t[0]] + rest)[0] == t[0] && ([t[0]] + rest)[1..] == rest;
      assert WithScore([t[0]] + rest, k) == head + WithScore(rest, k);
      assert WithScore(t, k) == head + WithScore(t[1..], k);
      assert here == [] || head == [];
      assert head + (here + WithScore(t[1..], k)) == here + (head + WithScore(t[1..], k));
    }
  }

  /** The sort is a permutation of its input. */
  lemma {:induction false} SortPermutes(s: seq<Instrument>)
    ensures multiset(SortByScore(s)) == multiset(s)
    decreases |s|
  {
    if s != [] {
      SortPermutes(s[1..]);
      InsertPermutes(s[0], SortByScore(s[1..]));
      assert s == [s[0]] + s[1..];
    }
  }

  /** The sort orders by score, highest first. */
  lemma {:induction false} SortSorted(s: seq<Instrument>)
    ensures SortedByScoreDesc(SortByScore(s))
    decreases |s|
  {
    if s != [] {
      SortSorted(s[1..]);
      InsertSorted(s[0], SortByScore(s[1..]));
    }
  }

  /** The sort is stable: instruments of any one score keep their input order. */
  lemma {:induction false} SortStable(s: seq<Instrument>, k: int)
    ensures WithScore(SortByScore(s), k) == WithScore(s, k)
    decreases |s|
  {
    if s != [] {
      SortStable(s[1..], k);
      InsertWithScore(s[0], SortByScore(s[1..]), k);
    }
  }

  /** Some instrument of kind `k` is in the list. */
  predicate Has(s: seq<Instrument>, k: Kind) {
    exists i :: 0 <= i < |s| && s[i].kind == k
  }

  lemma HasPermutation(s: seq<Instrument>, t: seq<Instrument>, k: Kind)
    requires multiset(s) == multiset(t)
    ensures Has(s, k) <==> Has(t, k)
  {
    if Has(s, k) {
      var i :| 0 <= i < |s| && s[i].kind == k;
      assert s[i] in multiset(t);
    }
    if Has(t, k) {
      var i :| 0 <= i < |t| && t[i].kind == k;
      assert t[i] in multiset(s);
    }
  }
}
