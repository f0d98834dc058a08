/** The retention window over the lines of a log, whatever a line is and however it is stamped. */
module LogWindow {
  import opened Prelude

  /** Nanoseconds. */
  type Time = int

  const PURGE_INTERVAL := 3_600_000_000_000

  predicate Fresh<L>(stamp: L -> Option<Time>, line: L, cutoff: Time) {
    var t := stamp(line);
    t.None? || t.value >= cutoff
  }

  function KeptOne<L>(stamp: L -> Option<Time>, line: L, cutoff: Time): seq<L> {
    if Fresh(stamp, line, cutoff) then [line] else []
  }

  function Kept<L>(stamp: L -> Option<Time>, lines: seq<L>, cutoff: Time): seq<L> {
    if lines == [] then []
    else KeptOne(stamp, lines[0], cutoff) + Kept(stamp, lines[1..], cutoff)
  }

  predicate InOrder<L>(stamp: L -> Option<Time>, before: L, after: L) {
    var t, u := stamp(before), stamp(after);
    t.Some? && u.Some? ==> t.value <= u.value
  }

  predicate Precedes<L>(stamp: L -> Option<Time>, line: L, rest: seq<L>) {
    rest == [] || (InOrder(stamp, line, rest[0]) && Precedes(stamp, line, rest[1..]))
  }

  /** Timestamps that parse never decrease down the file. */
  predicate Nondecreasing<L>(stamp: L -> Option<Time>, lines: seq<L>) {
    lines == [] || (Precedes(stamp, lines[0], lines[1..]) && Nondecreasing(stamp, lines[1..]))
  }

  predicate AllFresh<L>(stamp: L -> Option<Time>, lines: seq<L>, cutoff: Time) {
    lines == [] || (Fresh(stamp, lines[0], cutoff) && AllFresh(stamp, lines[1..], cutoff))
  }

  lemma {:induction false} KeptFacts<L>(stamp: L -> Option<Time>, lines: seq<L>, cutoff: Time)
    ensures AllFresh(stamp, Kept(stamp, lines, cutoff), cutoff)
    ensures Kept(stamp, lines, cutoff) == lines <==> AllFresh(stamp, lines, cutoff)
    ensures |Kept(stamp, lines, cutoff)| <= |lines|
    decreases |lines|
  {
    if lines != [] {
      KeptFacts(stamp, lines[1..], cutoff);
      if Fresh(stamp, lines[0], cutoff) {
        HeadTail(lines[0], Kept(stamp, lines[1..], cutoff));
        assert lines == [lines[0]] + lines[1..];
      } else {
        assert Kept(stamp, lines, cutoff) == Kept(stamp, lines[1..], cutoff);
      }
    }
  }

  lemma HeadTail<T>(x: T, rest: seq<T>)
    ensures ([x] + rest)[0] == x && ([x] + rest)[1..] == rest
  {
  }

  lemma {:induction false} FreshAfter<L>(stamp: L -> Option<Time>, line: L, rest: seq<L>, cutoff: Time)
    requires stamp(line).Some? && stamp(line).value >= cutoff
    requires Precedes(stamp, line, rest)
    ensures AllFresh(stamp, rest, cutoff)
  {
    if rest != [] {
      FreshAfter(stamp, line, rest[1..], cutoff);
    }
  }

  /**
   * One Write: the clock where the throttle is tested, where lastPurge is set and where the purge
   * computes its cutoff; the lines it appends.
   */
  datatype Entry<L> = Entry(lines: seq<L>, tested: Time, marked: Time, purged: Time)

  predicate Due<L>(lastPurge: Time, e: Entry<L>) {
    e.tested - lastPurge >= PURGE_INTERVAL
  }

  function Marked<L>(lastPurge: Time, e: Entry<L>): Time {
    if Due(lastPurge, e) then e.marked else lastPurge
  }

  /** The lines of the file after one Write, if every purge is the full filter. */
  function After<L>(stamp: L -> Option<Time>, retention: Time, lines: seq<L>, lastPurge: Time, e: Entry<L>): seq<L> {
    (if Due(lastPurge, e) then Kept(stamp, lines, e.purged - retention) else lines) + e.lines
  }

  /** All lines written by a run, in order. */
  function Added<L>(es: seq<Entry<L>>): seq<L> {
    if es == [] then [] else es[0].lines + Added(es[1..])
  }

  /** lastPurge after the first n Writes. */
  function MarkAt<L>(mark: Time, es: seq<Entry<L>>, n: nat): Time
    requires n <= |es|
  {
    if n == 0 then mark else Marked(MarkAt(mark, es, n - 1), es[n - 1])
  }

  /** The lines after the first n Writes, if every purge is the full filter. */
  function LinesAt<L>(stamp: L -> Option<Time>, retention: Time, lines: seq<L>, mark: Time, es: seq<Entry<L>>, n: nat): seq<L>
    requires n <= |es|
  {
    if n == 0 then lines
    else After(stamp, retention, LinesAt(stamp, retention, lines, mark, es, n - 1), MarkAt(mark, es, n - 1), es[n - 1])
  }

  /** Lines stamped at most the retention before they are written, on a clock that does not go back. */
  predicate SaneEntry<L>(stamp: L -> Option<Time>, retention: Time, from: Time, e: Entry<L>) {
    from <= e.tested <= e.marked <= e.purged && AllFresh(stamp, e.lines, e.purged - retention)
  }

  predicate SaneAt<L>(stamp: L -> Option<Time>, retention: Time, from: Time, es: seq<Entry<L>>, i: nat)
    requires i < |es|
  {
    SaneEntry(stamp, retention, if i == 0 then from else es[i - 1].purged, es[i])
  }

  predicate Sane<L>(stamp: L -> Option<Time>, retention: Time, from: Time, es: seq<Entry<L>>) {
    forall i :: 0 <= i < |es| ==> SaneAt(stamp, retention, from, es, i)
  }

  lemma {:induction false} PrecedesKept<L>(stamp: L -> Option<Time>, line: L, lines: seq<L>, rest: seq<L>, cutoff: Time)
    requires Precedes(stamp, line, lines + rest)
    ensures Precedes(stamp, line, Kept(stamp, lines, cutoff) + rest)
  {
    if lines != [] {
      assert (lines + rest)[1..] == lines[1..] + rest;
      PrecedesKept(stamp, line, lines[1..], rest, cutoff);
      if Fresh(stamp, lines[0], cutoff) {
        assert (Kept(stamp, lines, cutoff) + rest)[1..] == Kept(stamp, lines[1..], cutoff) + rest;
      } else {
        assert Kept(stamp, lines, cutoff) == Kept(stamp, lines[1..], cutoff);
      }
    } else {
      assert Kept(stamp, lines, cutoff) + rest == lines + rest;
    }
  }

  /** Dropping stale lines from the front part of a log in time order leaves it in time order. */
  lemma {:induction false} KeptInOrder<L>(stamp: L -> Option<Time>, lines: seq<L>, rest: seq<L>, cutoff: Time)
    requires Nondecreasing(stamp, lines + rest)
    ensures Nondecreasing(stamp, Kept(stamp, lines, cutoff) + rest)
  {
    if lines != [] {
      assert (lines + rest)[1..] == lines[1..] + rest;
      KeptInOrder(stamp, lines[1..], rest, cutoff);
      if Fresh(stamp, lines[0], cutoff) {
        PrecedesKept(stamp, lines[0], lines[1..], rest, cutoff);
        assert (Kept(stamp, lines, cutoff) + rest)[1..] == Kept(stamp, lines[1..], cutoff) + rest;
      } else {
        assert Kept(stamp, lines, cutoff) == Kept(stamp, lines[1..], cutoff);
      }
    } else {
      assert Kept(stamp, lines, cutoff) + rest == lines + rest;
    }
  }

  lemma {:induction false} PrefixInOrder<L>(stamp: L -> Option<Time>, a: seq<L>, b: seq<L>)
    requires Nondecreasing(stamp, a + b)
    ensures Nondecreasing(stamp, a)
  {
    if a != [] {
      assert (a + b)[1..] == a[1..] + b;
      PrefixInOrder(stamp, a[1..], b);
      PrefixPreceded(stamp, a[0], a[1..], b);
    }
  }

  lemma {:induction false} PrefixPreceded<L>(stamp: L -> Option<Time>, line: L, a: seq<L>, b: seq<L>)
    requires Precedes(stamp, line, a + b)
    ensures Precedes(stamp, line, a)
  {
    if a != [] {
      assert (a + b)[1..] == a[1..] + b;
      PrefixPreceded(stamp, line, a[1..], b);
    }
  }

  lemma {:induction false} FreshBoth<L>(stamp: L -> Option<Time>, a: seq<L>, b: seq<L>, ca: Time, cb: Time, cutoff: Time)
    requires AllFresh(stamp, a, ca) && AllFresh(stamp, b, cb) && cutoff <= ca && cutoff <= cb
    ensures AllFresh(stamp, a + b, cutoff)
    decreases |a| + |b|
  {
    if a != [] {
      assert (a + b)[1..] == a[1..] + b;
      FreshBoth(stamp, a[1..], b, ca, cb, cutoff);
    } else {
      assert a + b == b;
      if b != [] {
        assert a + b[1..] == b[1..];
        FreshBoth(stamp, a, b[1..], ca, cb, cutoff);
      }
    }
  }

  lemma Assoc<T>(a: seq<T>, b: seq<T>, c: seq<T>)
    ensures (a + b) + c == a + (b + c)
  {
  }

  lemma WriteStaysInOrder<L>(stamp: L -> Option<Time>, retention: Time, lines: seq<L>, lastPurge: Time, e: Entry<L>, later: seq<L>)
    requires Nondecreasing(stamp, lines + (e.lines + later))
    ensures Nondecreasing(stamp, After(stamp, retention, lines, lastPurge, e) + later)
  {
    if Due(lastPurge, e) {
      KeptInOrder(stamp, lines, e.lines + later, e.purged - retention);
      Assoc(Kept(stamp, lines, e.purged - retention), e.lines, later);
    } else {
      Assoc(lines, e.lines, later);
    }
  }

  /** Nothing is older than the retention and the slack before the last purge. */
  predicate InWindow<L>(stamp: L -> Option<Time>, retention: Time, slack: nat, lines: seq<L>, mark: Time) {
    AllFresh(stamp, lines, mark - retention - slack)
  }

  /** One Write: what is left is in the window. The throttle's test is strict, which gains one tick. */
  lemma WriteKeepsWindow<L>(stamp: L -> Option<Time>, retention: Time, slack: nat, lines: seq<L>, lastPurge: Time, e: Entry<L>)
    requires InWindow(stamp, retention, slack, lines, lastPurge) && SaneEntry(stamp, retention, lastPurge, e)
    ensures InWindow(stamp, retention, slack, After(stamp, retention, lines, lastPurge, e), Marked(lastPurge, e))
    ensures e.tested - PURGE_INTERVAL + 1 <= Marked(lastPurge, e) <= e.purged
  {
    var cutoff, bound := e.purged - retention, Marked(lastPurge, e) - retention - slack;
    if Due(lastPurge, e) {
      KeptFacts(stamp, lines, cutoff);
      FreshBoth(stamp, Kept(stamp, lines, cutoff), e.lines, cutoff, cutoff, bound);
    } else {
      FreshBoth(stamp, lines, e.lines, bound, cutoff, bound);
    }
  }

  /** After any number of Writes the lines keep the window, as long as each purge is the full filter. */
  lemma {:induction false} RunKeepsWindow<L>(stamp: L -> Option<Time>, retention: Time, slack: nat, lines: seq<L>, mark: Time,
                                          es: seq<Entry<L>>, n: nat)
    requires InWindow(stamp, retention, slack, lines, mark) && Sane(stamp, retention, mark, es) && n <= |es|
    ensures InWindow(stamp, retention, slack, LinesAt(stamp, retention, lines, mark, es, n), MarkAt(mark, es, n))
    ensures n > 0 ==> es[n - 1].tested - PURGE_INTERVAL + 1 <= MarkAt(mark, es, n) <= es[n - 1].purged
    decreases n
  {
    if n > 0 {
      RunKeepsWindow(stamp, retention, slack, lines, mark, es, n - 1);
      EntryAt(stamp, retention, mark, es, n - 1, MarkAt(mark, es, n - 1));
      WriteKeepsWindow(stamp, retention, slack, LinesAt(stamp, retention, lines, mark, es, n - 1),
                       MarkAt(mark, es, n - 1), es[n - 1]);
    }
  }

  lemma EntryAt<L>(stamp: L -> Option<Time>, retention: Time, from: Time, es: seq<Entry<L>>, i: nat, earlier: Time)
    requires Sane(stamp, retention, from, es) && i < |es|
    requires earlier <= if i == 0 then from else es[i - 1].purged
    ensures SaneEntry(stamp, retention, earlier, es[i])
  {
    assert SaneAt(stamp, retention, from, es, i);
  }

  lemma AddedSince<L>(es: seq<Entry<L>>, n: nat)
    requires n < |es|
    ensures Added(es[n..]) == es[n].lines + Added(es[n + 1..])
  {
    assert es[n..][1..] == es[n + 1..];
  }

  lemma {:induction false} FreshLater<L>(stamp: L -> Option<Time>, lines: seq<L>, cutoff: Time, weaker: Time)
    requires weaker <= cutoff && AllFresh(stamp, lines, cutoff)
    ensures AllFresh(stamp, lines, weaker)
  {
    if lines != [] {
      FreshLater(stamp, lines[1..], cutoff, weaker);
    }
  }

  lemma OpenInWindow<L>(stamp: L -> Option<Time>, retention: Time, lines: seq<L>, purged: Time, marked: Time)
    requires purged <= marked
    ensures InWindow(stamp, retention, marked - purged, Kept(stamp, lines, purged - retention), marked)
  {
    KeptFacts(stamp, lines, purged - retention);
    assert marked - retention - (marked - purged) == purged - retention;
  }
}
