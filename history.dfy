/** get_history_summary: the digest of a zone's past spills that is given to
    the assistant. The sentence itself is not rendered here; the summary holds
    the four facts it reports, as exact values. */
module History {
  import opened Types

  /** Python's `<` on strings: lexicographic by character, a proper prefix
      being smaller. Dates "YYYY-MM-DD" compare chronologically under it. */
  predicate LexLess(a: string, b: string)
    decreases |a|
  {
    if |a| == 0 then |b| > 0
    else if |b| == 0 then false
    else a[0] < b[0] || (a[0] == b[0] && LexLess(a[1..], b[1..]))
  }

  lemma {:induction false} LexLessIrreflexive(a: string)
    ensures !LexLess(a, a)
    decreases |a|
  {
    if |a| > 0 { LexLessIrreflexive(a[1..]); }
  }

  lemma {:induction false} LexLessTransitive(a: string, b: string, c: string)
    requires LexLess(a, b) && LexLess(b, c)
    ensures LexLess(a, c)
    decreases |a|
  {
    if |a| > 0 && |b| > 0 && |c| > 0 && a[0] == b[0] == c[0] {
      LexLessTransitive(a[1..], b[1..], c[1..]);
    }
  }

  lemma {:induction false} LexLessTotal(a: string, b: string)
    ensures a == b || LexLess(a, b) || LexLess(b, a)
    decreases |a|
  {
    if |a| > 0 && |b| > 0 && a[0] == b[0] {
      LexLessTotal(a[1..], b[1..]);
      if a[1..] == b[1..] {
        assert a == [a[0]] + a[1..] && b == [b[0]] + b[1..];
      }
    }
  }

  /** LexLess is a strict total order on strings. */
  lemma LexLessStrictTotalOrder()
    ensures forall a :: !LexLess(a, a)
    ensures forall a, b, c :: LexLess(a, b) && LexLess(b, c) ==> LexLess(a, c)
    ensures forall a, b :: a == b || LexLess(a, b) || LexLess(b, a)
  {
    forall a { LexLessIrreflexive(a); }
    forall a, b, c | LexLess(a, b) && LexLess(b, c) { LexLessTransitive(a, b, c); }
    forall a, b { LexLessTotal(a, b); }
  }

  /** Strings that agree before position `k` and differ there are ordered by
      their characters at `k`. */
  lemma {:induction false} LexLessAtIndex(a: string, b: string, k: nat)
    requires k < |a| && k < |b| && a[..k] == b[..k] && a[k] < b[k]
    ensures LexLess(a, b)
    decreases k
  {
    if k > 0 {
      assert a[1..][..k - 1] == a[..k][1..] && b[1..][..k - 1] == b[..k][1..];
      LexLessAtIndex(a[1..], b[1..], k - 1);
    }
  }

  /** `sum(e["area_km2"] for e in events)`, accumulated left to right from 0. */
  function TotalArea(events: seq<HistoryEvent>): real
    decreases |events|
  {
    if |events| == 0 then 0.0
    else TotalArea(events[..|events| - 1]) + events[|events| - 1].areaKm2
  }

  /** `max(e["area_km2"] for e in events)`: an area of some event, at least as
      large as every event's area. */
  function MaxArea(events: seq<HistoryEvent>): (m: real)
    requires |events| > 0
    ensures exists i :: 0 <= i < |events| && events[i].areaKm2 == m
    ensures forall i :: 0 <= i < |events| ==> events[i].areaKm2 <= m
    decreases |events|
  {
    if |events| == 1 then events[0].areaKm2
    else
      var n := |events| - 1;
      var prefix := events[..n];
      var m := MaxArea(prefix);
      assert forall i :: 0 <= i < n ==> prefix[i] == events[i];
      if events[n].areaKm2 > m then events[n].areaKm2 else m
  }

  /** `max(events, key=lambda e: e["date"])`: the index of the FIRST event whose
      date is greatest, since the scan replaces its candidate only on a
      strictly greater date. */
  function LatestIndex(events: seq<HistoryEvent>): (k: nat)
    requires |events| > 0
    ensures k < |events|
    ensures forall j :: 0 <= j < |events| ==> !LexLess(events[k].date, events[j].date)
    ensures forall j :: 0 <= j < k ==> LexLess(events[j].date, events[k].date)
    decreases |events|
  {
    if |events| == 1 then
      LexLessIrreflexive(events[0].date);
      0
    else
      var n := |events| - 1;
      var prefix := events[..n];
      var k := LatestIndex(prefix);
      assert forall i :: 0 <= i < n ==> prefix[i] == events[i];
      LexLessStrictTotalOrder();
      if LexLess(events[k].date, events[n].date) then n else k
  }

  /** Of three events with increasing dates, the third is the latest. */
  lemma LatestOfThreeIncreasing(es: seq<HistoryEvent>)
    requires |es| == 3
    requires LexLess(es[0].date, es[1].date) && LexLess(es[1].date, es[2].date)
    ensures LatestIndex(es) == 2
  {
    LexLessTransitive(es[0].date, es[1].date, es[2].date);
    var k := LatestIndex(es);
    assert !LexLess(es[k].date, es[2].date);
  }

  /** What get_history_summary reports. `NoHistory` stands for its fixed
      sentence "No historical spills recorded for this zone."; a `Digest`
      holds the count, total area, largest area and the most recent event. */
  datatype Summary =
    | NoHistory
    | Digest(count: nat, totalArea: real, maxArea: real, latestDate: string, latestArea: real)

  /** get_history_summary over the history table `history`. */
  function SummarizeHistory(history: map<string, seq<HistoryEvent>>, zoneId: string): (s: Summary)
    ensures s.NoHistory? <==> zoneId !in history || history[zoneId] == []
    ensures s.Digest? ==> s.count == |history[zoneId]| && s.totalArea == TotalArea(history[zoneId])
    ensures s.Digest? ==> s.maxArea == MaxArea(history[zoneId])
    ensures s.Digest? ==> exists k :: 0 <= k < |history[zoneId]|
                            && history[zoneId][k].date == s.latestDate
                            && history[zoneId][k].areaKm2 == s.latestArea
                            && (forall j :: 0 <= j < |history[zoneId]| ==> !LexLess(s.latestDate, history[zoneId][j].date))
                            && (forall j :: 0 <= j < k ==> LexLess(history[zoneId][j].date, s.latestDate))
  {
    var events := if zoneId in history then history[zoneId] else [];
    if events == [] then NoHistory
    else
      var latest := events[LatestIndex(events)];
      Digest(|events|, TotalArea(events), MaxArea(events), latest.date, latest.areaKm2)
  }

  /** With non-negative areas, the largest event is at most the total, and the
      total is at most count times the largest. */
  lemma {:induction false} MaxWithinTotal(events: seq<HistoryEvent>)
    requires |events| > 0
    requires forall i :: 0 <= i < |events| ==> events[i].areaKm2 >= 0.0
    ensures MaxArea(events) <= TotalArea(events) <= |events| as real * MaxArea(events)
    decreases |events|
  {
    var m := MaxArea(events);
    TotalBounds(events, m);
  }

  /** Every area non-negative and at most `m`: the total lies between any one
      area and |events| * m. */
  lemma {:induction false} TotalBounds(events: seq<HistoryEvent>, m: real)
    requires forall i :: 0 <= i < |events| ==> 0.0 <= events[i].areaKm2 <= m
    ensures TotalArea(events) <= |events| as real * m
    ensures forall i :: 0 <= i < |events| ==> events[i].areaKm2 <= TotalArea(events)
    decreases |events|
  {
    if |events| > 0 {
      var n := |events| - 1;
      var prefix := events[..n];
      assert forall i :: 0 <= i < n ==> prefix[i] == events[i];
      TotalBounds(prefix, m);
      TotalNonNegative(prefix);
    }
  }

  lemma {:induction false} TotalNonNegative(events: seq<HistoryEvent>)
    requires forall i :: 0 <= i < |events| ==> events[i].areaKm2 >= 0.0
    ensures TotalArea(events) >= 0.0
    decreases |events|
  {
    if |events| > 0 {
      var n := |events| - 1;
      assert forall i :: 0 <= i < n ==> events[..n][i] == events[i];
      TotalNonNegative(events[..n]);
    }
  }
}
