/** A phone that pages through a pair's whole log from nothing ends with the server's sessions. */
module Replay {
  import opened Domain
  import opened Tables
  import opened Reducer
  import opened StoreInvariant
  import opened StoreRuns
  import opened Paging

  /** With positive cursors, everything past zero is the pair's whole feed. */
  lemma {:induction false} PastZeroIsFeed(log: seq<Event>, cursors: seq<nat>, pair: Uuid, hi: nat)
    requires Numbered(log, cursors) && forall i :: 0 <= i < |cursors| ==> cursors[i] <= hi
    ensures Visible(log, cursors, pair, 0, hi) == Feed(log, pair)
  {
    if |log| > 0 {
      var n := |log| - 1;
      PastZeroIsFeed(log[..n], cursors[..n], pair, hi);
    }
  }

  /**
   In every run of the server, for any page limit: the pages from cursor zero up to the first short one, folded
   from nothing, give exactly the sessions, participants and notes of the pair.
   */
  lemma PagesReplay(calls: seq<Timed>, cursors: seq<nat>, pair: Uuid, limit: nat, pages: seq<Page>)
    requires InOrder(calls) && Numbered(After(calls).log, cursors) && limit > 0
    requires IsReplay(After(calls).log, cursors, pair, 0, limit, pages)
    ensures Fold(map[], Concat(pages)) == Project(After(calls), pair)
  {
    var log := After(calls).log;
    hide After, IsReplay, Fold, Concat, Visible, Feed;
    ReplayIsComplete(log, cursors, pair, 0, limit, pages);
    TopIsMax(log, cursors);
    PastZeroIsFeed(log, cursors, pair, Top(cursors));
    JournalReplays(calls, pair);
  }
}
