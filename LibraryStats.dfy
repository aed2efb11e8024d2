/**
 * The personal dashboard (`EstadisticasPersonales`): derived figures over the
 * loaded list of games — total, completed, completion percentage, the
 * distinct genres and the per-platform histogram.
 */
module LibraryStats {
  import opened Games
  import opened Seqs
  import opened Arith

  /** `juegos.filter(j => j.completado)` */
  function CompletedGames(js: seq<Game>): (r: seq<Game>)
    ensures |r| <= |js|
    ensures forall g :: g in r <==> g in js && g.completado
  {
    if js == [] then []
    else (if js[0].completado then [js[0]] else []) + CompletedGames(js[1..])
  }

  /** The games not completed: the second slice of the completion chart. */
  function PendingGames(js: seq<Game>): (r: seq<Game>)
    ensures |r| <= |js|
    ensures forall g :: g in r <==> g in js && !g.completado
  {
    if js == [] then []
    else (if js[0].completado then [] else [js[0]]) + PendingGames(js[1..])
  }

  /** `completados` */
  function CompletedCount(js: seq<Game>): nat {
    |CompletedGames(js)|
  }

  /** Every game is either completed or pending: the two counts add up to the total. */
  lemma {:induction false} CompletedPlusPending(js: seq<Game>)
    ensures |CompletedGames(js)| + |PendingGames(js)| == |js|
  {
    if js != [] {
      CompletedPlusPending(js[1..]);
    }
  }

  /** The completed count reaches the total exactly when every game is completed. */
  lemma {:induction false} AllCompletedIffCountIsTotal(js: seq<Game>)
    ensures CompletedCount(js) == |js| <==> forall i :: 0 <= i < |js| ==> js[i].completado
  {
    if js != [] {
      AllCompletedIffCountIsTotal(js[1..]);
      assert (forall i :: 0 <= i < |js| ==> js[i].completado) <==>
        js[0].completado && forall i :: 0 <= i < |js[1..]| ==> js[1..][i].completado
      by {
        if js[0].completado && forall i :: 0 <= i < |js[1..]| ==> js[1..][i].completado {
          forall i | 0 < i < |js| ensures js[i].completado {
            assert js[i] == js[1..][i - 1];
          }
        }
      }
    }
  }

  /**
   * `porcentajeCompletado`: completed / total * 100, and 0 for an empty
   * library. The exact ratio; its display with one decimal is not modelled.
   */
  function CompletionPercentage(js: seq<Game>): (p: real)
    ensures 0.0 <= p <= 100.0
    ensures |js| == 0 ==> p == 0.0
    ensures |js| > 0 ==> IsPercentOf(p, CompletedCount(js), |js|)
  {
    var total, done := |js|, CompletedCount(js);
    if total > 0 then
      var p := (done as real / total as real) * 100.0;
      assert (done as real / total as real) <= 1.0 by {
        assert done as real <= total as real;
      }
      p
    else 0.0
  }

  /** The percentage is 100 exactly when the library is non-empty and every game is completed. */
  lemma FullPercentageIffAllCompleted(js: seq<Game>)
    ensures CompletionPercentage(js) == 100.0 <==>
      |js| > 0 && forall i :: 0 <= i < |js| ==> js[i].completado
  {
    AllCompletedIffCountIsTotal(js);
    if |js| > 0 {
      FullPercent(CompletionPercentage(js), CompletedCount(js), |js|);
    }
  }

  /** `juegos.map(j => j.genero)` */
  function Genres(js: seq<Game>): (gs: seq<string>)
    ensures |gs| == |js| && forall i :: 0 <= i < |js| ==> gs[i] == js[i].genero
  {
    seq(|js|, i requires 0 <= i < |js| => js[i].genero)
  }

  /** `juegos.map(j => j.plataforma)` */
  function Platforms(js: seq<Game>): (ps: seq<string>)
    ensures |ps| == |js| && forall i :: 0 <= i < |js| ==> ps[i] == js[i].plataforma
  {
    seq(|js|, i requires 0 <= i < |js| => js[i].plataforma)
  }

  /** `generos`: `[...new Set(juegos.map(j => j.genero))]`. */
  function DistinctGenres(js: seq<Game>): seq<string> {
    Dedup(Genres(js))
  }

  /**
   * The genre list has no duplicates, holds exactly the genres of the games,
   * and lists them in the order each first appears.
   */
  lemma DistinctGenresSpec(js: seq<Game>)
    ensures Distinct(DistinctGenres(js))
    ensures forall i :: 0 <= i < |js| ==> js[i].genero in DistinctGenres(js)
    ensures forall k :: 0 <= k < |DistinctGenres(js)| ==>
      exists i :: 0 <= i < |js| && js[i].genero == DistinctGenres(js)[k]
    ensures var gs := DistinctGenres(js);
      forall a, b :: 0 <= a < b < |gs| ==>
        gs[a] in Genres(js) && gs[b] in Genres(js) && IndexOf(Genres(js), gs[a]) < IndexOf(Genres(js), gs[b])
  {
    var gs := DistinctGenres(js);
    assert forall i :: 0 <= i < |js| ==> Genres(js)[i] == js[i].genero;
    forall k | 0 <= k < |gs| ensures exists i :: 0 <= i < |js| && js[i].genero == gs[k] {
      assert gs[k] in Genres(js);
      var i :| 0 <= i < |js| && Genres(js)[i] == gs[k];
    }
    DedupFirstOccurrenceOrder(Genres(js));
  }

  /** One `Object.entries` pair of the platform histogram. */
  type Entry = (string, nat)

  /** The keys of the entries, in order. */
  function EntryKeys(h: seq<Entry>): (ks: seq<string>)
    ensures |ks| == |h| && forall i :: 0 <= i < |h| ==> ks[i] == h[i].0
  {
    seq(|h|, i requires 0 <= i < |h| => h[i].0)
  }

  /** `acc[p] || 0`: the count the accumulator holds for `p`, 0 when absent. */
  function CountFor(h: seq<Entry>, p: string): nat {
    if h == [] then 0 else if h[0].0 == p then h[0].1 else CountFor(h[1..], p)
  }

  /** The sum of the counts. */
  function SumCounts(h: seq<Entry>): nat {
    if h == [] then 0 else h[0].1 + SumCounts(h[1..])
  }

  /**
   * `acc[p] = (acc[p] || 0) + 1` on an object: an existing key keeps its
   * position and gains one; a new key is added last with count 1.
   */
  function Bump(h: seq<Entry>, p: string): (r: seq<Entry>)
    ensures |r| > 0
  {
    if h == [] then [(p, 1)]
    else if h[0].0 == p then [(p, h[0].1 + 1)] + h[1..]
    else [h[0]] + Bump(h[1..], p)
  }

  /** `plataformaCount`: the `reduce` from the left over the platforms of the games. */
  function Histogram(xs: seq<string>): seq<Entry> {
    if xs == [] then [] else Bump(Histogram(xs[..|xs| - 1]), xs[|xs| - 1])
  }

  /** `Object.entries(plataformaCount)` */
  function PlatformCount(js: seq<Game>): seq<Entry> {
    Histogram(Platforms(js))
  }

  /** Bump adds the key at the end when it is new and keeps the key list otherwise. */
  lemma {:induction false} BumpKeys(h: seq<Entry>, p: string)
    ensures EntryKeys(Bump(h, p)) == if p in EntryKeys(h) then EntryKeys(h) else EntryKeys(h) + [p]
  {
    if h != [] {
      BumpKeys(h[1..], p);
      assert EntryKeys(h) == [h[0].0] + EntryKeys(h[1..]);
      if h[0].0 == p {
        assert EntryKeys(Bump(h, p)) == EntryKeys(h);
      } else {
        assert EntryKeys(Bump(h, p)) == [h[0].0] + EntryKeys(Bump(h[1..], p));
        assert p in EntryKeys(h) <==> p in EntryKeys(h[1..]);
      }
    }
  }

  /** Bump raises the count of `p` by one and leaves every other count alone. */
  lemma {:induction false} BumpCount(h: seq<Entry>, p: string, q: string)
    ensures CountFor(Bump(h, p), q) == CountFor(h, q) + (if q == p then 1 else 0)
  {
    if h != [] && h[0].0 != p {
      BumpCount(h[1..], p, q);
      assert Bump(h, p)[1..] == Bump(h[1..], p);
    }
  }

  /** Bump adds one to the total. */
  lemma {:induction false} BumpSum(h: seq<Entry>, p: string)
    ensures SumCounts(Bump(h, p)) == SumCounts(h) + 1
  {
    if h != [] && h[0].0 != p {
      BumpSum(h[1..], p);
      assert Bump(h, p)[1..] == Bump(h[1..], p);
    } else if h != [] {
      assert Bump(h, p)[1..] == h[1..];
    }
  }

  /** The histogram lists each distinct value once, in first-occurrence order. */
  lemma {:induction false} HistogramKeys(xs: seq<string>)
    ensures EntryKeys(Histogram(xs)) == Dedup(xs)
  {
    if xs != [] {
      var init, last := xs[..|xs| - 1], xs[|xs| - 1];
      HistogramKeys(init);
      BumpKeys(Histogram(init), last);
    }
  }

  /** The count of every value is its number of occurrences. */
  lemma {:induction false} HistogramCounts(xs: seq<string>, q: string)
    ensures CountFor(Histogram(xs), q) == multiset(xs)[q]
  {
    if xs != [] {
      var init, last := xs[..|xs| - 1], xs[|xs| - 1];
      assert xs == init + [last];
      HistogramCounts(init, q);
      BumpCount(Histogram(init), last, q);
    }
  }

  /** The counts add up to the number of values. */
  lemma {:induction false} HistogramSum(xs: seq<string>)
    ensures SumCounts(Histogram(xs)) == |xs|
  {
    if xs != [] {
      var init, last := xs[..|xs| - 1], xs[|xs| - 1];
      HistogramSum(init);
      BumpSum(Histogram(init), last);
    }
  }

  /** With distinct keys, an entry's count is what `CountFor` reads for its key. */
  lemma {:induction false} EntryCount(h: seq<Entry>, k: nat)
    requires k < |h| && Distinct(EntryKeys(h))
    ensures CountFor(h, h[k].0) == h[k].1
  {
    if k > 0 {
      assert h[0].0 != h[k].0 by {
        assert EntryKeys(h)[0] == h[0].0 && EntryKeys(h)[k] == h[k].0;
      }
      DistinctTail(EntryKeys(h));
      assert EntryKeys(h)[1..] == EntryKeys(h[1..]);
      EntryCount(h[1..], k - 1);
    }
  }

  /**
   * The platform histogram: one entry per distinct platform, in the order
   * platforms first appear; each entry's count is the number of games on
   * that platform; the counts add up to the number of games.
   */
  lemma PlatformCountSpec(js: seq<Game>)
    ensures EntryKeys(PlatformCount(js)) == Dedup(Platforms(js))
    ensures var h := PlatformCount(js);
      forall k :: 0 <= k < |h| ==> h[k].1 == multiset(Platforms(js))[h[k].0]
    ensures forall p :: CountFor(PlatformCount(js), p) == multiset(Platforms(js))[p]
    ensures SumCounts(PlatformCount(js)) == |js|
  {
    var h := PlatformCount(js);
    HistogramKeys(Platforms(js));
    HistogramSum(Platforms(js));
    forall p ensures CountFor(h, p) == multiset(Platforms(js))[p] {
      HistogramCounts(Platforms(js), p);
    }
    forall k | 0 <= k < |h| ensures h[k].1 == multiset(Platforms(js))[h[k].0] {
      EntryCount(h, k);
      HistogramCounts(Platforms(js), h[k].0);
    }
  }
}
