/** Cursors over the event log, pages of events, and what a client sees that follows the pages. */
module Paging {
  import opened Domain
  import opened Tables
  import opened Reducer

  /** The cursors of the events: positive, one for each, strictly increasing, with gaps after rollbacks. */
  ghost predicate Numbered(log: seq<Event>, cursors: seq<nat>) {
    |cursors| == |log| &&
    (forall i :: 0 <= i < |cursors| ==> 0 < cursors[i]) &&
    (forall i, j :: 0 <= i < j < |cursors| ==> cursors[i] < cursors[j])
  }

  /** The largest cursor in use. */
  function Top(cursors: seq<nat>): nat {
    if |cursors| == 0 then 0 else cursors[|cursors| - 1]
  }

  /** The events of a pair with a cursor above `lo` and up to `hi`, in cursor order. */
  ghost function Visible(log: seq<Event>, cursors: seq<nat>, pair: Uuid, lo: nat, hi: nat): seq<Event>
    requires |cursors| == |log|
  {
    if |log| == 0 then []
    else
      var n := |log| - 1;
      Visible(log[..n], cursors[..n], pair, lo, hi) +
      (if log[n].pair == pair && lo < cursors[n] <= hi then [log[n]] else [])
  }

  /** All events of a pair past a cursor. */
  ghost function Past(log: seq<Event>, cursors: seq<nat>, pair: Uuid, lo: nat): seq<Event>
    requires |cursors| == |log|
  {
    Visible(log, cursors, pair, lo, Top(cursors))
  }

  /**
   A page: the events between the old and the new cursor, at most `limit` of them, where the new cursor
   is that of a last event taken; and a page that is not full has left nothing behind.
   */
  ghost predicate IsPage(log: seq<Event>, cursors: seq<nat>, pair: Uuid, from: nat, limit: nat,
                         events: seq<Event>, next: nat)
    requires |cursors| == |log|
  {
    events == Visible(log, cursors, pair, from, next) &&
    |events| <= limit && from <= next && (|events| == 0 ==> next == from) &&
    (|events| > 0 ==> exists i :: 0 <= i < |log| && cursors[i] == next && log[i].pair == pair) &&
    (|events| < limit ==> events == Past(log, cursors, pair, from))
  }

  lemma {:induction false} NoneAbove(log: seq<Event>, cursors: seq<nat>, pair: Uuid, lo: nat, hi: nat)
    requires |cursors| == |log| && (hi <= lo || forall i :: 0 <= i < |cursors| ==> cursors[i] <= lo)
    ensures Visible(log, cursors, pair, lo, hi) == []
  {
    if |log| > 0 {
      NoneAbove(log[..|log| - 1], cursors[..|log| - 1], pair, lo, hi);
    }
  }

  lemma {:induction false} SameAbove(log: seq<Event>, cursors: seq<nat>, pair: Uuid, lo: nat, hi: nat, hi': nat)
    requires |cursors| == |log| && hi <= hi' && forall i :: 0 <= i < |cursors| ==> cursors[i] <= hi
    ensures Visible(log, cursors, pair, lo, hi) == Visible(log, cursors, pair, lo, hi')
  {
    if |log| > 0 {
      SameAbove(log[..|log| - 1], cursors[..|log| - 1], pair, lo, hi, hi');
    }
  }

  lemma TopIsMax(log: seq<Event>, cursors: seq<nat>)
    requires Numbered(log, cursors)
    ensures forall i :: 0 <= i < |cursors| ==> cursors[i] <= Top(cursors)
  {
  }

  /** Splitting the visible events at a cursor. */
  lemma {:induction false} Split(log: seq<Event>, cursors: seq<nat>, pair: Uuid, lo: nat, mid: nat, hi: nat)
    requires Numbered(log, cursors) && lo <= mid <= hi
    ensures Visible(log, cursors, pair, lo, hi) ==
            Visible(log, cursors, pair, lo, mid) + Visible(log, cursors, pair, mid, hi)
  {
    if |log| > 0 {
      var n := |log| - 1;
      var l, c := log[..n], cursors[..n];
      Split(l, c, pair, lo, mid, hi);
      if cursors[n] <= mid {
        NoneAbove(l, c, pair, mid, hi);
        NoneAbove(log, cursors, pair, mid, hi);
      }
    }
  }

  /** Taking a page leaves exactly the rest for the next one. */
  lemma PageLeavesRest(log: seq<Event>, cursors: seq<nat>, pair: Uuid, from: nat, limit: nat,
                       events: seq<Event>, next: nat)
    requires Numbered(log, cursors) && from <= Top(cursors)
    requires IsPage(log, cursors, pair, from, limit, events, next)
    ensures from <= next <= Top(cursors)
    ensures Past(log, cursors, pair, from) == events + Past(log, cursors, pair, next)
    ensures |events| < limit ==> Past(log, cursors, pair, next) == []
  {
    TopIsMax(log, cursors);
    Split(log, cursors, pair, from, next, Top(cursors));
  }

  datatype Page = Page(events: seq<Event>, next: nat)

  /** The pages a client takes on a fixed log: full ones, and a last one that is not full. */
  ghost predicate IsReplay(log: seq<Event>, cursors: seq<nat>, pair: Uuid, from: nat, limit: nat, pages: seq<Page>)
    requires |cursors| == |log|
    decreases |pages|
  {
    |pages| > 0 &&
    IsPage(log, cursors, pair, from, limit, pages[0].events, pages[0].next) &&
    (|pages[0].events| < limit <==> |pages| == 1) &&
    (|pages| > 1 ==> IsReplay(log, cursors, pair, pages[0].next, limit, pages[1..]))
  }

  function Concat(pages: seq<Page>): seq<Event> {
    if |pages| == 0 then [] else pages[0].events + Concat(pages[1..])
  }

  /**
   From any cursor and for any page limit, the pages put together are exactly the pair's events past
   the cursor, in order, without gap or duplicate; there are as many pages as the events need.
   */
  lemma {:induction false} ReplayIsComplete(log: seq<Event>, cursors: seq<nat>, pair: Uuid, from: nat, limit: nat,
                                            pages: seq<Page>)
    requires Numbered(log, cursors) && from <= Top(cursors) && limit > 0
    requires IsReplay(log, cursors, pair, from, limit, pages)
    ensures Concat(pages) == Past(log, cursors, pair, from)
    ensures (|pages| - 1) * limit <= |Past(log, cursors, pair, from)| < |pages| * limit
    decreases |pages|
  {
    PageLeavesRest(log, cursors, pair, from, limit, pages[0].events, pages[0].next);
    if |pages| > 1 {
      ReplayIsComplete(log, cursors, pair, pages[0].next, limit, pages[1..]);
      assert (|pages| - 2) * limit + limit == (|pages| - 1) * limit;
      assert (|pages| - 1) * limit + limit == |pages| * limit;
    } else {
      assert pages[0].events + [] == pages[0].events;
    }
  }

  // ---------------------------------------------------------------- snapshots past a cursor

  /** Some snapshot of the session lies past the cursor. */
  ghost predicate SnapshotPast(log: seq<Event>, cursors: seq<nat>, pair: Uuid, id: Uuid, cursor: nat)
    requires |cursors| == |log|
  {
    exists i :: 0 <= i < |log| && cursors[i] > cursor && log[i].pair == pair && Snapshots(log[i], id)
  }

  /** If the last snapshot lies in a stretch of the log, the stretch ends with the same snapshot as the log. */
  lemma {:induction false} LastInStretch(log: seq<Event>, cursors: seq<nat>, pair: Uuid, id: Uuid, lo: nat, hi: nat)
    requires Numbered(log, cursors)
    requires forall i :: 0 <= i < |log| && Snapshots(log[i], id) ==> log[i].pair == pair
    requires SnapshotPast(log, cursors, pair, id, lo) && !SnapshotPast(log, cursors, pair, id, hi)
    ensures LastSnapshot(Visible(log, cursors, pair, lo, hi), id) == LastSnapshot(log, id)
    ensures LastSnapshot(log, id).Some?
  {
    var n := |log| - 1;
    var l, c := log[..n], cursors[..n];
    var v := Visible(l, c, pair, lo, hi);
    if Snapshots(log[n], id) {
      var i :| 0 <= i < |log| && cursors[i] > lo && log[i].pair == pair && Snapshots(log[i], id);
      assert lo < cursors[n] <= hi;
      assert Visible(log, cursors, pair, lo, hi) == v + [log[n]];
    } else {
      var i :| 0 <= i < |log| && cursors[i] > lo && log[i].pair == pair && Snapshots(log[i], id);
      assert l[i] == log[i] && c[i] == cursors[i];
      assert !SnapshotPast(l, c, pair, id, hi);
      LastInStretch(l, c, pair, id, lo, hi);
      if log[n].pair == pair && lo < cursors[n] <= hi {
        assert (v + [log[n]])[..|v|] == v;
      } else {
        assert Visible(log, cursors, pair, lo, hi) == v;
      }
    }
  }

  /** No snapshot past the cursor means none in any stretch above it. */
  lemma {:induction false} NoneInStretch(log: seq<Event>, cursors: seq<nat>, pair: Uuid, id: Uuid, lo: nat, hi: nat)
    requires |cursors| == |log| && !SnapshotPast(log, cursors, pair, id, lo)
    ensures LastSnapshot(Visible(log, cursors, pair, lo, hi), id) == None
  {
    if |log| > 0 {
      var n := |log| - 1;
      var l, c := log[..n], cursors[..n];
      assert !SnapshotPast(l, c, pair, id, lo);
      NoneInStretch(l, c, pair, id, lo, hi);
      var v := Visible(l, c, pair, lo, hi);
      if log[n].pair == pair && lo < cursors[n] <= hi {
        assert !Snapshots(log[n], id);
        assert (v + [log[n]])[..|v|] == v;
      } else {
        assert Visible(log, cursors, pair, lo, hi) == v;
      }
    }
  }

  /** A longer log with larger cursors shows the same events up to an old cursor. */
  lemma {:induction false} StretchStays(log: seq<Event>, cursors: seq<nat>, log': seq<Event>, cursors': seq<nat>,
                                        pair: Uuid, lo: nat, hi: nat)
    requires |cursors| == |log| && Numbered(log', cursors') && log <= log' && cursors <= cursors'
    requires forall i :: |cursors| <= i < |cursors'| ==> cursors'[i] > hi
    ensures Visible(log', cursors', pair, lo, hi) == Visible(log, cursors, pair, lo, hi)
  {
    if |log| < |log'| {
      var n := |log'| - 1;
      StretchStays(log, cursors, log'[..n], cursors'[..n], pair, lo, hi);
      assert Visible(log', cursors', pair, lo, hi) == Visible(log'[..n], cursors'[..n], pair, lo, hi);
    } else {
      assert log == log' && cursors == cursors';
    }
  }
}
