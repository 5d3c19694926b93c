/**
 * The news helpers of the trading bot (autotrade.py): the fixed
 * four-hour news update slots of get_next_news_update_time and the
 * de-duplicate, sort and format pipeline of _process_news.  Times are
 * whole seconds on the local clock; articles are the dictionaries the
 * search returned, each key possibly absent.
 */
module News {
  import opened Common

  // ---------------------------------------------------------------------
  // get_next_news_update_time
  // ---------------------------------------------------------------------

  const SECONDS_PER_HOUR: int := 3600
  const SECONDS_PER_DAY: int := 86400
  const SLOT_SECONDS: int := 14400
  /** The update hours 00, 04, 08, 12, 16 and 20. */
  const SLOT_HOURS: seq<int> := [0, 4, 8, 12, 16, 20]

  /** next((h for h in hours if h > x), default). */
  function FirstAbove(hours: seq<int>, x: int, default: int): (h: int)
    ensures h == default || (h in hours && h > x)
  {
    if hours == [] then default
    else if hours[0] > x then hours[0]
    else FirstAbove(hours[1..], x, default)
  }

  /** The slot hour after a clock hour: the next multiple of four, or 0 from 20 on. */
  lemma NextSlotHour(hour: int)
    requires 0 <= hour < 24
    ensures var h := FirstAbove(SLOT_HOURS, hour, SLOT_HOURS[0]);
      (hour < 20 ==> hour < h <= hour + 4 && h % 4 == 0) && (hour >= 20 ==> h == 0)
  {
    var s0 := SLOT_HOURS;
    var s1, s2, s3 := [4, 8, 12, 16, 20], [8, 12, 16, 20], [12, 16, 20];
    var s4, s5, s6: seq<int> := [16, 20], [20], [];
    assert s0[1..] == s1 && s1[1..] == s2 && s2[1..] == s3 && s3[1..] == s4 && s4[1..] == s5 && s5[1..] == s6;
    assert FirstAbove(s6, hour, 0) == 0;
    assert FirstAbove(s5, hour, 0) == if 20 > hour then 20 else 0;
    assert FirstAbove(s4, hour, 0) == if 16 > hour then 16 else FirstAbove(s5, hour, 0);
    assert FirstAbove(s3, hour, 0) == if 12 > hour then 12 else FirstAbove(s4, hour, 0);
    assert FirstAbove(s2, hour, 0) == if 8 > hour then 8 else FirstAbove(s3, hour, 0);
    assert FirstAbove(s1, hour, 0) == if 4 > hour then 4 else FirstAbove(s2, hour, 0);
    assert FirstAbove(s0, hour, 0) == if 0 > hour then 0 else FirstAbove(s1, hour, 0);
  }

  /**
   * The clock hour of t, the slot after it today, and one day later when
   * that slot is not after t (only when the next slot is midnight).
   */
  function NextNewsUpdateTime(t: int): (r: int)
    ensures t < r <= t + SLOT_SECONDS
    ensures r % SLOT_SECONDS == 0
  {
    var midnight := t - t % SECONDS_PER_DAY;
    var hour := (t % SECONDS_PER_DAY) / SECONDS_PER_HOUR;
    SlotArithmetic(t, midnight, hour);
    var next := FirstAbove(SLOT_HOURS, hour, SLOT_HOURS[0]);
    NextSlotHour(hour);
    var candidate := midnight + next * SECONDS_PER_HOUR;
    SlotBounds(t, midnight, hour, next);
    if candidate <= t then candidate + SECONDS_PER_DAY else candidate
  }

  lemma SlotArithmetic(t: int, midnight: int, hour: int)
    requires midnight == t - t % SECONDS_PER_DAY && hour == (t % SECONDS_PER_DAY) / SECONDS_PER_HOUR
    ensures 0 <= hour < 24 && midnight % SLOT_SECONDS == 0
    ensures midnight + hour * SECONDS_PER_HOUR <= t < midnight + (hour + 1) * SECONDS_PER_HOUR
  {
    var q := t / SECONDS_PER_DAY;
    var s := t % SECONDS_PER_DAY;
    assert t == q * SECONDS_PER_DAY + s && 0 <= s < SECONDS_PER_DAY;
    assert midnight == (q * 6) * SLOT_SECONDS;
    assert hour * SECONDS_PER_HOUR <= s < (hour + 1) * SECONDS_PER_HOUR;
  }

  lemma SlotBounds(t: int, midnight: int, hour: int, next: int)
    requires 0 <= hour < 24 && midnight % SLOT_SECONDS == 0
    requires midnight + hour * SECONDS_PER_HOUR <= t < midnight + (hour + 1) * SECONDS_PER_HOUR
    requires (hour < 20 ==> hour < next <= hour + 4 && next % 4 == 0) && (hour >= 20 ==> next == 0)
    ensures var c := midnight + next * SECONDS_PER_HOUR;
      (c % SLOT_SECONDS == 0) &&
      (hour < 20 ==> t < c <= t + SLOT_SECONDS) &&
      (hour >= 20 ==> c <= t && t < c + SECONDS_PER_DAY <= t + SLOT_SECONDS)
  {
    var m := next / 4;
    assert next == m * 4;
    assert next * SECONDS_PER_HOUR == m * SLOT_SECONDS;
  }

  /** The result is the earliest slot strictly after t: no slot lies in between. */
  lemma NextNewsUpdateTimeIsNext(t: int, slot: int)
    requires slot % SLOT_SECONDS == 0 && t < slot
    ensures NextNewsUpdateTime(t) <= slot
  {
    var r := NextNewsUpdateTime(t);
    var qr, qs := r / SLOT_SECONDS, slot / SLOT_SECONDS;
    assert r == qr * SLOT_SECONDS && slot == qs * SLOT_SECONDS;
    assert (qr - 1) * SLOT_SECONDS < qs * SLOT_SECONDS;
    assert qr - 1 < qs;
  }

  // ---------------------------------------------------------------------
  // _process_news
  // ---------------------------------------------------------------------

  /** A search result; each key may be missing. */
  datatype Article = Article(title: Option<string>, date: Option<string>, snippet: Option<string>)

  function Title(a: Article): string { a.title.GetOr("") }
  function Date(a: Article): string { a.date.GetOr("") }
  function Snippet(a: Article): string { a.snippet.GetOr("") }

  /** The position of the first article with this title, if any. */
  function TitleIndex(xs: seq<Article>, title: string): (r: Option<nat>)
    ensures r.Some? ==> r.value < |xs| && Title(xs[r.value]) == title &&
                        forall j :: 0 <= j < r.value ==> Title(xs[j]) != title
    ensures r.None? ==> forall j :: 0 <= j < |xs| ==> Title(xs[j]) != title
  {
    if xs == [] then None
    else if Title(xs[0]) == title then Some(0)
    else
      var rest := TitleIndex(xs[1..], title);
      if rest.None? then None else Some(rest.value + 1)
  }

  /** d[title] = article: a known title keeps its place and takes the new value, a new one goes last. */
  function Upsert(xs: seq<Article>, a: Article): (r: seq<Article>)
    ensures var i := TitleIndex(xs, Title(a));
      if i.Some? then r == xs[i.value := a] else r == xs + [a]
  {
    var i := TitleIndex(xs, Title(a));
    if i.Some? then xs[i.value := a] else xs + [a]
  }

  /** The values of {article.get('title', ''): article for article in xs}, in dictionary order. */
  function Dedup(xs: seq<Article>): (r: seq<Article>)
    ensures |r| <= |xs|
    ensures r == [] <==> xs == []
  {
    if xs == [] then [] else Upsert(Dedup(xs[..|xs| - 1]), xs[|xs| - 1])
  }

  predicate DistinctTitles(xs: seq<Article>)
  {
    forall i, j :: 0 <= i < j < |xs| ==> Title(xs[i]) != Title(xs[j])
  }

  /** xs[k] is the last article of xs with its title. */
  predicate LastWithTitle(xs: seq<Article>, k: nat)
    requires k < |xs|
  {
    forall j :: k < j < |xs| ==> Title(xs[j]) != Title(xs[k])
  }

  /** The titles occurring in xs. */
  function Titles(xs: seq<Article>): set<string>
  {
    set i | 0 <= i < |xs| :: Title(xs[i])
  }

  lemma UpsertDistinct(xs: seq<Article>, a: Article)
    requires DistinctTitles(xs)
    ensures DistinctTitles(Upsert(xs, a))
    ensures Titles(Upsert(xs, a)) == Titles(xs) + {Title(a)}
  {
    var r := Upsert(xs, a);
    var idx := TitleIndex(xs, Title(a));
    if idx.Some? {
      assert forall i :: 0 <= i < |r| ==> Title(r[i]) == Title(xs[i]);
      assert Title(a) in Titles(xs) by { assert Title(xs[idx.value]) == Title(a); }
    } else {
      assert forall i :: 0 <= i < |xs| ==> r[i] == xs[i];
      assert r[|xs|] == a;
      assert Titles(r) == Titles(xs) + {Title(a)} by {
        forall t | t in Titles(r) ensures t in Titles(xs) + {Title(a)} {
          var i :| 0 <= i < |r| && Title(r[i]) == t;
        }
        forall t | t in Titles(xs) + {Title(a)} ensures t in Titles(r) {
          if t == Title(a) {
            assert Title(r[|xs|]) == t;
          } else {
            var i :| 0 <= i < |xs| && Title(xs[i]) == t;
            assert Title(r[i]) == t;
          }
        }
      }
    }
  }

  /** De-duplication keeps one article per title and loses no title. */
  lemma {:induction false} DedupTitles(xs: seq<Article>)
    ensures DistinctTitles(Dedup(xs))
    ensures Titles(Dedup(xs)) == Titles(xs)
  {
    if xs != [] {
      var n := |xs| - 1;
      DedupTitles(xs[..n]);
      UpsertDistinct(Dedup(xs[..n]), xs[n]);
      assert xs == xs[..n] + [xs[n]];
      assert Titles(xs) == Titles(xs[..n]) + {Title(xs[n])} by {
        forall t | t in Titles(xs) ensures t in Titles(xs[..n]) + {Title(xs[n])} {
          var i :| 0 <= i < |xs| && Title(xs[i]) == t;
          if i < n { assert xs[..n][i] == xs[i]; }
        }
        forall t | t in Titles(xs[..n]) ensures t in Titles(xs) {
          var i :| 0 <= i < n && Title(xs[..n][i]) == t;
          assert xs[i] == xs[..n][i];
        }
        assert Title(xs[n]) in Titles(xs);
      }
    }
  }

  /** The article de-duplication keeps for a title is the last one with that title. */
  lemma {:induction false} DedupKeepsLast(xs: seq<Article>)
    ensures forall i :: 0 <= i < |Dedup(xs)| ==>
      exists k :: 0 <= k < |xs| && xs[k] == Dedup(xs)[i] && LastWithTitle(xs, k)
  {
    if xs != [] {
      var n := |xs| - 1;
      var init := xs[..n];
      var a := xs[n];
      var d := Dedup(init);
      DedupKeepsLast(init);
      DedupTitles(init);
      var r := Dedup(xs);
      assert r == Upsert(d, a);
      var idx := TitleIndex(d, Title(a));
      forall i | 0 <= i < |r| ensures exists k :: 0 <= k < |xs| && xs[k] == r[i] && LastWithTitle(xs, k) {
        if (idx.Some? && i == idx.value) || (idx.None? && i == |d|) {
          assert r[i] == a && LastWithTitle(xs, n);
        } else {
          assert i < |d| && r[i] == d[i];
          assert Title(d[i]) != Title(a) by {
            if idx.Some? {
              assert Title(d[idx.value]) == Title(a);
              assert idx.value < i || i < idx.value;
            }
          }
          var k :| 0 <= k < |init| && init[k] == d[i] && LastWithTitle(init, k);
          assert xs[k] == init[k];
          forall j | k < j < |xs| ensures Title(xs[j]) != Title(xs[k]) {
            if j < n { assert xs[j] == init[j]; }
          }
          assert xs[k] == r[i] && LastWithTitle(xs, k);
        }
      }
    } else {
      assert Dedup(xs) == [];
    }
  }

  /** A title occurs in xs exactly when it has a first position. */
  lemma TitleIndexFinds(xs: seq<Article>, t: string)
    ensures TitleIndex(xs, t).Some? <==> t in Titles(xs)
  {
    var i := TitleIndex(xs, t);
    if i.Some? {
      assert Title(xs[i.value]) == t;
    }
  }

  /** Appending an article moves no first position and gives a new title the last one. */
  lemma {:induction false} TitleIndexAppend(xs: seq<Article>, a: Article, t: string)
    ensures TitleIndex(xs + [a], t) ==
            if TitleIndex(xs, t).Some? then TitleIndex(xs, t)
            else if Title(a) == t then Some(|xs|) else None
  {
    if xs == [] {
      assert [] + [a] == [a];
      assert [a][1..] == [];
    } else {
      assert (xs + [a])[0] == xs[0];
      assert (xs + [a])[1..] == xs[1..] + [a];
      TitleIndexAppend(xs[1..], a, t);
    }
  }

  /** The articles of r stand in the order of their titles' first positions in xs. */
  predicate InFirstOccurrenceOrder(r: seq<Article>, xs: seq<Article>)
  {
    (forall i :: 0 <= i < |r| ==> TitleIndex(xs, Title(r[i])).Some?) &&
    (forall i, j :: 0 <= i < j < |r| ==> TitleIndex(xs, Title(r[i])).value < TitleIndex(xs, Title(r[j])).value)
  }

  /** Appending to xs keeps every first position of r's titles, so r's order. */
  lemma OrderExtend(r: seq<Article>, xs: seq<Article>, a: Article)
    requires InFirstOccurrenceOrder(r, xs)
    ensures forall i :: 0 <= i < |r| ==> TitleIndex(xs + [a], Title(r[i])) == TitleIndex(xs, Title(r[i]))
    ensures InFirstOccurrenceOrder(r, xs + [a])
  {
    forall i | 0 <= i < |r| ensures TitleIndex(xs + [a], Title(r[i])) == TitleIndex(xs, Title(r[i])) {
      TitleIndexAppend(xs, a, Title(r[i]));
    }
  }

  /** Assigning to a title already present changes no title, so no position. */
  lemma UpsertKnownKeepsOrder(r: seq<Article>, xs: seq<Article>, a: Article)
    requires InFirstOccurrenceOrder(r, xs) && TitleIndex(r, Title(a)).Some?
    ensures InFirstOccurrenceOrder(Upsert(r, a), xs)
  {
    var u := Upsert(r, a);
    assert forall k :: 0 <= k < |u| ==> Title(u[k]) == Title(r[k]);
  }

  /** A new title goes last, and its first position lies after every other. */
  lemma AppendLaterKeepsOrder(r: seq<Article>, xs: seq<Article>, a: Article)
    requires InFirstOccurrenceOrder(r, xs) && TitleIndex(xs, Title(a)).Some?
    requires forall i :: 0 <= i < |r| ==> TitleIndex(xs, Title(r[i])).value < TitleIndex(xs, Title(a)).value
    ensures InFirstOccurrenceOrder(r + [a], xs)
  {
    var u := r + [a];
    assert forall k :: 0 <= k < |r| ==> u[k] == r[k];
    assert u[|r|] == a;
  }

  /**
   * The dictionary keeps insertion order: each title sits where it first
   * occurred, even though it holds the last article with that title.
   */
  lemma {:induction false} DedupFirstOccurrenceOrder(xs: seq<Article>)
    ensures InFirstOccurrenceOrder(Dedup(xs), xs)
  {
    if xs != [] {
      var n := |xs| - 1;
      var init := xs[..n];
      var a := xs[n];
      var d := Dedup(init);
      DedupFirstOccurrenceOrder(init);
      assert xs == init + [a];
      assert Dedup(xs) == Upsert(d, a);
      OrderExtend(d, init, a);
      if TitleIndex(d, Title(a)).Some? {
        UpsertKnownKeepsOrder(d, xs, a);
      } else {
        DedupTitles(init);
        TitleIndexFinds(d, Title(a));
        TitleIndexFinds(init, Title(a));
        TitleIndexAppend(init, a, Title(a));
        AppendLaterKeepsOrder(d, xs, a);
      }
    }
  }

  /** Python's < on strings: lexicographic by code point. */
  predicate LexLess(a: string, b: string)
  {
    if a == [] then b != []
    else if b == [] then false
    else a[0] < b[0] || (a[0] == b[0] && LexLess(a[1..], b[1..]))
  }

  lemma {:induction false} LexLessTransitive(a: string, b: string, c: string)
    requires LexLess(a, b) && LexLess(b, c)
    ensures LexLess(a, c)
  {
    if a != [] && b != [] && c != [] && a[0] == b[0] && b[0] == c[0] {
      LexLessTransitive(a[1..], b[1..], c[1..]);
    }
  }

  lemma {:induction false} LexLessTotal(a: string, b: string)
    ensures LexLess(a, b) || a == b || LexLess(b, a)
  {
    if a != [] && b != [] && a[0] == b[0] {
      LexLessTotal(a[1..], b[1..]);
      if a[1..] == b[1..] {
        assert a == [a[0]] + a[1..] && b == [b[0]] + b[1..];
      }
    }
  }

  lemma {:induction false} LexLessIrreflexive(a: string)
    ensures !LexLess(a, a)
  {
    if a != [] {
      LexLessIrreflexive(a[1..]);
    }
  }

  /** Newest first: no article's date is below a later one's. */
  predicate SortedNewestFirst(xs: seq<Article>)
  {
    forall i, j :: 0 <= i < j < |xs| ==> !LexLess(Date(xs[i]), Date(xs[j]))
  }

  /**
   * Inserting into a newest-first list after every article whose date is
   * not below the new one's: the stable position for an article that came
   * later in the input.
   */
  function InsertNewestFirst(xs: seq<Article>, a: Article): (r: seq<Article>)
    ensures |r| == |xs| + 1 && multiset(r) == multiset(xs) + multiset{a}
  {
    if xs == [] then [a]
    else if LexLess(Date(xs[0]), Date(a)) then [a] + xs
    else
      assert xs == [xs[0]] + xs[1..];
      [xs[0]] + InsertNewestFirst(xs[1..], a)
  }

  /** sorted(xs, key=date, reverse=True), which Python keeps stable. */
  function SortNewestFirst(xs: seq<Article>): (r: seq<Article>)
    ensures |r| == |xs| && multiset(r) == multiset(xs)
  {
    if xs == [] then []
    else
      var n := |xs| - 1;
      assert xs == xs[..n] + [xs[n]];
      InsertNewestFirst(SortNewestFirst(xs[..n]), xs[n])
  }

  /** The tail of a list sorted newest first is sorted too. */
  lemma SortedTail(xs: seq<Article>)
    requires SortedNewestFirst(xs) && xs != []
    ensures SortedNewestFirst(xs[1..])
  {
    var tail := xs[1..];
    forall i, j | 0 <= i < j < |tail| ensures !LexLess(Date(tail[i]), Date(tail[j])) {
      assert tail[i] == xs[i + 1] && tail[j] == xs[j + 1];
    }
  }

  lemma {:induction false} InsertKeepsSorted(xs: seq<Article>, a: Article)
    requires SortedNewestFirst(xs)
    ensures SortedNewestFirst(InsertNewestFirst(xs, a))
  {
    if xs != [] && !LexLess(Date(xs[0]), Date(a)) {
      var tail := xs[1..];
      SortedTail(xs);
      InsertKeepsSorted(tail, a);
      var rest := InsertNewestFirst(tail, a);
      var r := [xs[0]] + rest;
      forall i, j | 0 <= i < j < |r| ensures !LexLess(Date(r[i]), Date(r[j])) {
        if i == 0 {
          assert r[j] in multiset(rest);
          assert r[j] == a || r[j] in multiset(tail);
          if r[j] != a {
            var t :| 0 <= t < |tail| && tail[t] == r[j];
            assert xs[t + 1] == r[j];
          }
        } else {
          assert r[i] == rest[i - 1] && r[j] == rest[j - 1];
        }
      }
    } else if xs != [] {
      var r := [a] + xs;
      forall i, j | 0 <= i < j < |r| ensures !LexLess(Date(r[i]), Date(r[j])) {
        if i == 0 {
          assert r[j] == xs[j - 1];
          if j == 1 {
            LexLessIrreflexive(Date(xs[0]));
          }
          LexNotLessAfter(Date(xs[0]), Date(xs[j - 1]), Date(a));
        } else {
          assert r[i] == xs[i - 1] && r[j] == xs[j - 1];
        }
      }
    }
  }

  /** y <= x < z gives y <= z. */
  lemma LexNotLessAfter(x: string, y: string, z: string)
    requires !LexLess(x, y) && LexLess(x, z)
    ensures !LexLess(z, y)
  {
    LexLessTotal(x, y);
    if LexLess(z, y) {
      if y == x {
        LexLessTransitive(z, x, z);
      } else {
        LexLessTransitive(z, y, x);
        LexLessTransitive(z, x, z);
      }
      LexLessIrreflexive(z);
    }
  }

  lemma {:induction false} SortSorted(xs: seq<Article>)
    ensures SortedNewestFirst(SortNewestFirst(xs))
  {
    if xs != [] {
      var n := |xs| - 1;
      var sortedInit := SortNewestFirst(xs[..n]);
      SortSorted(xs[..n]);
      InsertKeepsSorted(sortedInit, xs[n]);
      assert SortNewestFirst(xs) == InsertNewestFirst(sortedInit, xs[n]);
    }
  }

  /** The articles of xs dated d, in their order. */
  function WithDate(xs: seq<Article>, d: string): (r: seq<Article>)
    ensures |r| <= |xs|
  {
    if xs == [] then []
    else (if Date(xs[0]) == d then [xs[0]] else []) + WithDate(xs[1..], d)
  }

  /** WithDate picks articles of xs, each dated d. */
  lemma {:induction false} WithDateSubset(xs: seq<Article>, d: string)
    ensures forall x :: x in WithDate(xs, d) ==> x in xs && Date(x) == d
  {
    if xs != [] {
      WithDateSubset(xs[1..], d);
      assert forall x :: x in xs[1..] ==> x in xs;
    }
  }

  /** Dropping the first article keeps the order of the rest. */
  lemma OrderTail(r: seq<Article>, xs: seq<Article>)
    requires InFirstOccurrenceOrder(r, xs) && r != []
    ensures InFirstOccurrenceOrder(r[1..], xs)
  {
    var tail := r[1..];
    assert forall i :: 0 <= i < |tail| ==> tail[i] == r[i + 1];
  }

  /** An article whose title came first may go in front. */
  lemma OrderCons(x: Article, w: seq<Article>, xs: seq<Article>)
    requires InFirstOccurrenceOrder(w, xs) && TitleIndex(xs, Title(x)).Some?
    requires forall k :: 0 <= k < |w| ==> TitleIndex(xs, Title(x)).value < TitleIndex(xs, Title(w[k])).value
    ensures InFirstOccurrenceOrder([x] + w, xs)
  {
    var u := [x] + w;
    assert u[0] == x && u[1..] == w;
    forall k | 0 <= k < |u| ensures TitleIndex(xs, Title(u[k])).Some? {
      if k > 0 {
        assert u[k] == u[1..][k - 1];
      }
    }
    forall i, j | 0 <= i < j < |u|
      ensures TitleIndex(xs, Title(u[i])).value < TitleIndex(xs, Title(u[j])).value
    {
      assert u[j] == u[1..][j - 1];
      if i > 0 {
        assert u[i] == u[1..][i - 1];
      }
    }
  }

  /** Picking the articles of one date keeps the first-occurrence order. */
  lemma {:induction false} WithDateKeepsOrder(r: seq<Article>, xs: seq<Article>, d: string)
    requires InFirstOccurrenceOrder(r, xs)
    ensures InFirstOccurrenceOrder(WithDate(r, d), xs)
  {
    if r != [] {
      var tail := r[1..];
      OrderTail(r, xs);
      WithDateKeepsOrder(tail, xs, d);
      var wt := WithDate(tail, d);
      if Date(r[0]) == d {
        WithDateSubset(tail, d);
        forall k | 0 <= k < |wt|
          ensures TitleIndex(xs, Title(r[0])).value < TitleIndex(xs, Title(wt[k])).value
        {
          assert wt[k] in wt;
          var m :| 0 <= m < |tail| && tail[m] == wt[k];
          assert r[m + 1] == wt[k];
        }
        OrderCons(r[0], wt, xs);
        assert WithDate(r, d) == [r[0]] + wt;
      } else {
        assert WithDate(r, d) == wt;
      }
    }
  }

  lemma {:induction false} WithDateAppend(xs: seq<Article>, a: Article, d: string)
    ensures WithDate(xs + [a], d) == WithDate(xs, d) + (if Date(a) == d then [a] else [])
  {
    if xs == [] {
      assert xs + [a] == [a];
    } else {
      assert (xs + [a])[1..] == xs[1..] + [a];
      WithDateAppend(xs[1..], a, d);
    }
  }

  lemma WithDateCons(a: Article, xs: seq<Article>, d: string)
    ensures WithDate([a] + xs, d) == (if Date(a) == d then [a] else []) + WithDate(xs, d)
  {
    assert ([a] + xs)[0] == a && ([a] + xs)[1..] == xs;
  }

  /** On a sorted list, every article dated Date(a) stays before a newly inserted a. */
  lemma {:induction false} InsertStable(xs: seq<Article>, a: Article, d: string)
    requires SortedNewestFirst(xs)
    ensures WithDate(InsertNewestFirst(xs, a), d) == WithDate(xs, d) + (if Date(a) == d then [a] else [])
  {
    if xs == [] {
      WithDateCons(a, [], d);
    } else if LexLess(Date(xs[0]), Date(a)) {
      WithDateCons(a, xs, d);
      if Date(a) == d {
        NoneDated(xs, d);
      }
    } else {
      SortedTail(xs);
      InsertStable(xs[1..], a, d);
      InsertBelowHead(xs, a, d);
    }
  }

  lemma ConcatAssociative(p: seq<Article>, q: seq<Article>, r: seq<Article>)
    ensures p + (q + r) == (p + q) + r
  {
  }

  /** The step of InsertStable when a goes below the head: the head's contribution comes first on both sides. */
  lemma InsertBelowHead(xs: seq<Article>, a: Article, d: string)
    requires xs != [] && !LexLess(Date(xs[0]), Date(a))
    requires WithDate(InsertNewestFirst(xs[1..], a), d) == WithDate(xs[1..], d) + (if Date(a) == d then [a] else [])
    ensures WithDate(InsertNewestFirst(xs, a), d) == WithDate(xs, d) + (if Date(a) == d then [a] else [])
  {
    var tail := xs[1..];
    var head := if Date(xs[0]) == d then [xs[0]] else [];
    var extra := if Date(a) == d then [a] else [];
    assert xs == [xs[0]] + tail;
    calc {
      WithDate(InsertNewestFirst(xs, a), d);
      WithDate([xs[0]] + InsertNewestFirst(tail, a), d);
      { WithDateCons(xs[0], InsertNewestFirst(tail, a), d); }
      head + WithDate(InsertNewestFirst(tail, a), d);
      head + (WithDate(tail, d) + extra);
      { ConcatAssociative(head, WithDate(tail, d), extra); }
      (head + WithDate(tail, d)) + extra;
      { WithDateCons(xs[0], tail, d); }
      WithDate(xs, d) + extra;
    }
  }

  /** When the head of a sorted list is dated below d, no article of it is dated d. */
  lemma {:induction false} NoneDated(xs: seq<Article>, d: string)
    requires SortedNewestFirst(xs) && xs != [] && LexLess(Date(xs[0]), d)
    ensures WithDate(xs, d) == []
  {
    if Date(xs[0]) == d {
      LexLessIrreflexive(d);
    }
    if |xs| > 1 {
      var tail := xs[1..];
      SortedTail(xs);
      assert LexLess(Date(tail[0]), d) by {
        assert !LexLess(Date(xs[0]), Date(xs[1]));
        LexLessTotal(Date(xs[0]), Date(xs[1]));
        if Date(xs[1]) != Date(xs[0]) {
          LexLessTransitive(Date(xs[1]), Date(xs[0]), d);
        }
      }
      NoneDated(tail, d);
    }
  }

  /** Stability: the articles sharing a date keep the order they had before sorting. */
  lemma {:induction false} SortStable(xs: seq<Article>, d: string)
    ensures WithDate(SortNewestFirst(xs), d) == WithDate(xs, d)
  {
    if xs != [] {
      var n := |xs| - 1;
      SortStable(xs[..n], d);
      SortSorted(xs[..n]);
      InsertStable(SortNewestFirst(xs[..n]), xs[n], d);
      assert xs == xs[..n] + [xs[n]];
      WithDateAppend(xs[..n], xs[n], d);
    }
  }

  /** Decimal digits of n, as f-string formatting writes an int. */
  function NatToString(n: nat): (s: string)
    ensures |s| > 0 && forall i :: 0 <= i < |s| ==> '0' <= s[i] <= '9'
    decreases n
  {
    if n < 10 then [('0' as int + n) as char]
    else NatToString(n / 10) + [('0' as int + n % 10) as char]
  }

  /** The value of a string of decimal digits. */
  function DigitsValue(s: string): nat
    requires forall i :: 0 <= i < |s| ==> '0' <= s[i] <= '9'
  {
    if s == [] then 0 else DigitsValue(s[..|s| - 1]) * 10 + (s[|s| - 1] as int - '0' as int)
  }

  /** The numbering reads back as the number: formatting loses nothing. */
  lemma {:induction false} NatToStringRoundTrip(n: nat)
    ensures DigitsValue(NatToString(n)) == n
    decreases n
  {
    if n >= 10 {
      NatToStringRoundTrip(n / 10);
      var s := NatToString(n);
      assert s[..|s| - 1] == NatToString(n / 10);
    }
  }

  /** The lower-case form of an ASCII capital; every other character is kept. */
  function LowerChar(c: char): char
  {
    if 'A' <= c <= 'Z' then (c as int + 32) as char else c
  }

  /** str.lower() on the ASCII letters. */
  function Lower(s: string): (r: string)
    ensures |r| == |s| && forall i :: 0 <= i < |s| ==> r[i] == LowerChar(s[i])
  {
    seq(|s|, i requires 0 <= i < |s| => LowerChar(s[i]))
  }

  /** The substring test of Python's in on strings. */
  function Contains(s: string, k: string): (r: bool)
    decreases |s|
  {
    if |s| < |k| then false
    else if s[..|k|] == k then true
    else |s| > 0 && Contains(s[1..], k)
  }

  /** k occurs in s at position i. */
  predicate OccursAt(s: string, k: string, i: int)
  {
    0 <= i && i + |k| <= |s| && s[i..i + |k|] == k
  }

  lemma {:induction false} ContainsSpec(s: string, k: string)
    ensures Contains(s, k) <==> exists i :: OccursAt(s, k, i)
    decreases |s|
  {
    if |s| >= |k| && s[..|k|] != k && |s| > 0 {
      ContainsSpec(s[1..], k);
      if Contains(s[1..], k) {
        var i :| OccursAt(s[1..], k, i);
        assert s[i + 1..i + 1 + |k|] == s[1..][i..i + |k|];
        assert OccursAt(s, k, i + 1);
      }
      if exists i :: OccursAt(s, k, i) {
        var i :| OccursAt(s, k, i);
        assert i != 0;
        assert s[1..][i - 1..i - 1 + |k|] == s[i..i + |k|];
        assert OccursAt(s[1..], k, i - 1);
      }
    } else if |s| >= |k| && s[..|k|] == k {
      assert OccursAt(s, k, 0);
    } else if |s| < |k| {
      assert forall i :: !OccursAt(s, k, i);
    }
  }

  lemma LowerConcat(a: string, b: string)
    ensures Lower(a + b) == Lower(a) + Lower(b)
  {
    assert forall i :: 0 <= i < |a + b| ==> Lower(a + b)[i] == (Lower(a) + Lower(b))[i];
  }

  const KEYWORDS: seq<string> := ["sec", "regulation", "bitcoin"]

  /** A title is flagged when its lower-cased form contains sec, regulation or bitcoin. */
  predicate IsImportant(a: Article)
  {
    Contains(Lower(Title(a)), "sec") || Contains(Lower(Title(a)), "regulation") ||
    Contains(Lower(Title(a)), "bitcoin")
  }

  /** Upper or lower case, "Bitcoin" anywhere in the title flags it. */
  lemma BitcoinInTitleIsImportant(before: string, after: string, date: Option<string>, snippet: Option<string>)
    ensures IsImportant(Article(Some(before + "Bitcoin" + after), date, snippet))
  {
    var t := before + "Bitcoin" + after;
    LowerConcat(before + "Bitcoin", after);
    LowerConcat(before, "Bitcoin");
    assert Lower("Bitcoin") == "bitcoin";
    var low := Lower(before) + "bitcoin" + Lower(after);
    assert Lower(t) == low;
    var i := |Lower(before)|;
    assert low[i..i + 7] == "bitcoin";
    assert OccursAt(low, "bitcoin", i);
    ContainsSpec(low, "bitcoin");
  }

  /** The two lines of the idx-th article: an optional fire mark, the number, the title, then the indented snippet. */
  function Entry(a: Article, idx: nat): (r: string)
    ensures |r| >= 2 && r[|r| - 2..] == "\n\n"
  {
    (if IsImportant(a) then "🔥 " else "") + NatToString(idx) + ". " + Title(a) + "\n" +
    "   " + Snippet(a) + "\n\n"
  }

  /** An entry starts with the fire mark exactly when its title is important: numbers never start with it. */
  lemma EntryMarksImportant(a: Article, idx: nat)
    ensures IsImportant(a) <==> Entry(a, idx)[0] == '🔥'
  {
  }

  /** The summary of the sorted articles, numbered from 1. */
  function Summary(xs: seq<Article>): (r: string)
    ensures r == "" <==> xs == []
    ensures xs != [] ==> |r| >= 2 && r[|r| - 2..] == "\n\n"
  {
    if xs == [] then "" else Summary(xs[..|xs| - 1]) + Entry(xs[|xs| - 1], |xs|)
  }

  /** The summary is the entries in order: the article at position k carries the number k + 1. */
  lemma {:induction false} SummaryExtends(xs: seq<Article>, ys: seq<Article>)
    ensures |Summary(xs)| <= |Summary(xs + ys)| && Summary(xs + ys)[..|Summary(xs)|] == Summary(xs)
    decreases |ys|
  {
    if ys == [] {
      assert xs + ys == xs;
    } else {
      var m := |ys| - 1;
      assert xs + ys == (xs + ys[..m]) + [ys[m]];
      SummaryExtends(xs, ys[..m]);
      var zs := xs + ys;
      assert zs[..|zs| - 1] == xs + ys[..m];
    }
  }

  /** One more article adds its entry, numbered by its position from 1. */
  lemma SummaryStep(xs: seq<Article>, i: nat)
    requires i < |xs|
    ensures Summary(xs[..i + 1]) == Summary(xs[..i]) + Entry(xs[i], i + 1)
  {
    assert xs[..i + 1][..i] == xs[..i];
  }

  /**
   * _process_news: de-duplicate by title, sort newest first, then append
   * one numbered entry per article.
   */
  method ProcessNews(results: seq<Article>) returns (summary: string)
    ensures summary == Summary(SortNewestFirst(Dedup(results)))
  {
    var sorted := SortNewestFirst(Dedup(results));
    summary := "";
    var i := 0;
    while i < |sorted|
      invariant 0 <= i <= |sorted|
      invariant summary == Summary(sorted[..i])
    {
      SummaryStep(sorted, i);
      summary := summary + Entry(sorted[i], i + 1);
      i := i + 1;
    }
    assert sorted[..i] == sorted;
  }

  /**
   * What the summary is made of: distinct titles, newest first, and the
   * articles of one date in the order of their titles' first occurrence.
   */
  lemma ProcessedNewsOrder(results: seq<Article>, d: string)
    ensures var sorted := SortNewestFirst(Dedup(results));
      SortedNewestFirst(sorted) && multiset(sorted) == multiset(Dedup(results)) &&
      WithDate(sorted, d) == WithDate(Dedup(results), d) &&
      InFirstOccurrenceOrder(WithDate(sorted, d), results)
  {
    SortSorted(Dedup(results));
    SortStable(Dedup(results), d);
    DedupFirstOccurrenceOrder(results);
    WithDateKeepsOrder(Dedup(results), results, d);
  }
}
