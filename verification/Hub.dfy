/** The hint hub: bounded channels, a publish that never waits, and what a dropped hint implies. */
module Hub {
  import opened Domain

  const CAPACITY: nat := 8

  datatype Hint = Hint(pair: Uuid, cursor: nat)

  // ---------------------------------------------------------------- one subscriber's buffer

  function Offered(pending: seq<Hint>, hint: Hint): seq<Hint> {
    if |pending| < CAPACITY then pending + [hint] else pending
  }

  /** What happens to one subscriber: hints are offered to it, and it takes them. */
  datatype Move = Offer(hint: Hint) | Take

  function Pending(moves: seq<Move>): seq<Hint> {
    if |moves| == 0 then []
    else
      var before := Pending(moves[..|moves| - 1]);
      match moves[|moves| - 1]
      case Offer(hint) => Offered(before, hint)
      case Take => if |before| == 0 then before else before[1..]
  }

  /** The hints taken so far, and those offered. */
  function Taken(moves: seq<Move>): seq<Hint> {
    if |moves| == 0 then []
    else
      var n := |moves| - 1;
      Taken(moves[..n]) + if moves[n].Take? && |Pending(moves[..n])| > 0 then [Pending(moves[..n])[0]] else []
  }

  function Sent(moves: seq<Move>): seq<Hint> {
    if |moves| == 0 then []
    else Sent(moves[..|moves| - 1]) + if moves[|moves| - 1].Offer? then [moves[|moves| - 1].hint] else []
  }

  ghost predicate Subsequence(some: seq<Hint>, all: seq<Hint>) {
    if |some| == 0 then true
    else
      |all| > 0 &&
      ((some[|some| - 1] == all[|all| - 1] && Subsequence(some[..|some| - 1], all[..|all| - 1])) ||
       Subsequence(some, all[..|all| - 1]))
  }

  lemma {:induction false} OneMore(some: seq<Hint>, all: seq<Hint>, hint: Hint)
    requires Subsequence(some, all)
    ensures Subsequence(some, all + [hint]) && Subsequence(some + [hint], all + [hint])
  {
    assert (all + [hint])[..|all|] == all && (some + [hint])[..|some|] == some;
  }

  lemma AfterOffer(moves: seq<Move>, hint: Hint)
    requires |moves| > 0 && moves[|moves| - 1] == Offer(hint)
    ensures var before := moves[..|moves| - 1];
            Taken(moves) == Taken(before) && Sent(moves) == Sent(before) + [hint] &&
            Pending(moves) == Offered(Pending(before), hint)
  {
  }

  lemma AfterTake(moves: seq<Move>)
    requires |moves| > 0 && moves[|moves| - 1].Take?
    ensures var before := moves[..|moves| - 1];
            Sent(moves) == Sent(before) && Taken(moves) + Pending(moves) == Taken(before) + Pending(before) &&
            |Pending(moves)| <= |Pending(before)|
  {
    var before := moves[..|moves| - 1];
    var taken, pending := Taken(before), Pending(before);
    if |pending| > 0 {
      assert Taken(moves) == taken + [pending[0]] && Pending(moves) == pending[1..];
      hide Taken, Pending;
      assert taken + [pending[0]] + pending[1..] == taken + ([pending[0]] + pending[1..]) == taken + pending;
    }
  }

  /** Hints arrive in the order they were published, none twice; those not dropped are taken or still held. */
  lemma {:induction false} TakenInOrder(moves: seq<Move>)
    ensures Subsequence(Taken(moves) + Pending(moves), Sent(moves)) && |Pending(moves)| <= CAPACITY
  {
    if |moves| > 0 {
      hide Taken, Pending, Sent, Subsequence;
      var before := moves[..|moves| - 1];
      TakenInOrder(before);
      match moves[|moves| - 1]
      case Offer(hint) =>
        AfterOffer(moves, hint);
        OneMore(Taken(before) + Pending(before), Sent(before), hint);
        assert Taken(before) + (Pending(before) + [hint]) == Taken(before) + Pending(before) + [hint];
      case Take =>
        AfterTake(moves);
    }
  }

  /** Some hint is taken between two points of a run. */
  ghost predicate TakesBetween(moves: seq<Move>, i: nat, j: nat) {
    exists k :: i < k < j <= |moves| && moves[k].Take? && |Pending(moves[..k])| > 0
  }

  /** A buffer is empty only if it was empty before, or a hint was just taken from it. */
  lemma LastMove(moves: seq<Move>, k: nat)
    requires k < |moves| && |Pending(moves[..k + 1])| == 0
    ensures moves[k].Take?
  {
    assert moves[..k + 1][..k] == moves[..k];
  }

  /**
   Dropping is harmless: after every publish, dropped or not, a subscriber that later has nothing left to
   take has taken a hint since, and so has replayed from storage what the publish announced.
   */
  lemma {:induction false} HintFollowsPublish(moves: seq<Move>, i: nat, j: nat)
    requires i < j <= |moves| && moves[i].Offer? && |Pending(moves[..j])| == 0
    ensures TakesBetween(moves, i, j)
    decreases j
  {
    hide Pending;
    LastMove(moves, j - 1);
    if i < j - 1 {
      if |Pending(moves[..j - 1])| == 0 {
        HintFollowsPublish(moves, i, j - 1);
      }
    }
  }

  // ---------------------------------------------------------------- channels and the hub

  /** A buffered channel: the hints sent and not yet received, oldest first. */
  class Channel {
    var pending: seq<Hint>

    constructor ()
      ensures pending == []
    {
      pending := [];
    }

    /** A send that gives up when the buffer is full. */
    method TrySend(hint: Hint) returns (sent: bool)
      modifies this
      ensures sent == (|old(pending)| < CAPACITY) && pending == Offered(old(pending), hint)
    {
      sent := |pending| < CAPACITY;
      if sent {
        pending := pending + [hint];
      }
    }

    method TryReceive() returns (hint: Option<Hint>)
      modifies this
      ensures |old(pending)| == 0 ==> hint.None? && pending == []
      ensures |old(pending)| > 0 ==> hint == Some(old(pending)[0]) && pending == old(pending)[1..]
    {
      hint := None;
      if |pending| > 0 {
        hint := Some(pending[0]);
        pending := pending[1..];
      }
    }
  }

  class Hub {
    var subscribers: map<Uuid, set<Channel>>

    /** The channels of a pair; a pair without an entry has none. */
    function Of(pair: Uuid): set<Channel>
      reads this
    {
      if pair in subscribers then subscribers[pair] else {}
    }

    /** No entry is empty, no channel serves two pairs, no buffer overflows and no hint is misdirected. */
    ghost predicate Valid()
      reads this, set channel, pair | pair in subscribers && channel in subscribers[pair] :: channel
    {
      (forall pair :: pair in subscribers ==> subscribers[pair] != {}) &&
      (forall p, q :: p in subscribers && q in subscribers && p != q ==> subscribers[p] !! subscribers[q]) &&
      (forall pair, channel :: pair in subscribers && channel in subscribers[pair] ==>
         |channel.pending| <= CAPACITY && forall i :: 0 <= i < |channel.pending| ==> channel.pending[i].pair == pair)
    }

    constructor ()
      ensures Valid() && subscribers == map[]
    {
      subscribers := map[];
    }

    method Subscribe(pair: Uuid) returns (channel: Channel)
      requires Valid()
      modifies this
      ensures Valid() && fresh(channel) && channel.pending == []
      ensures Of(pair) == old(Of(pair)) + {channel}
      ensures forall other :: other != pair ==> Of(other) == old(Of(other))
    {
      channel := new Channel();
      if pair !in subscribers {
        subscribers := subscribers[pair := {}];
      }
      subscribers := subscribers[pair := subscribers[pair] + {channel}];
    }

    /** The closure that `Subscribe` returns. Calling it again changes nothing. */
    method Unsubscribe(pair: Uuid, channel: Channel)
      requires Valid()
      modifies this
      ensures Valid() && Of(pair) == old(Of(pair)) - {channel}
      ensures forall other :: other != pair ==> Of(other) == old(Of(other))
      ensures channel !in old(Of(pair)) ==> subscribers == old(subscribers)
      ensures pair in subscribers <==> old(Of(pair)) - {channel} != {}
    {
      if pair in subscribers {
        subscribers := subscribers[pair := subscribers[pair] - {channel}];
        assert channel !in old(Of(pair)) ==> old(Of(pair)) - {channel} == old(Of(pair));
        if subscribers[pair] == {} {
          subscribers := subscribers - {pair};
        }
      }
    }

    /**
     Offers a hint to every subscriber of its pair and to nobody else, without waiting. A subscriber that
     misses it still holds a full buffer, so after a publish every subscriber has something to receive.
     */
    method Publish(hint: Hint)
      requires Valid()
      modifies Of(hint.pair)
      ensures Valid()
      ensures forall channel :: channel in Of(hint.pair) ==>
                channel.pending == Offered(old(channel.pending), hint) && |channel.pending| > 0
      ensures forall channel :: channel in Of(hint.pair) && hint !in channel.pending ==>
                |channel.pending| == CAPACITY && channel.pending == old(channel.pending)
    {
      var rest := Of(hint.pair);
      while rest != {}
        invariant rest <= Of(hint.pair)
        invariant forall channel :: channel in rest ==> channel.pending == old(channel.pending)
        invariant forall channel :: channel in Of(hint.pair) - rest ==>
                    channel.pending == Offered(old(channel.pending), hint)
        decreases |rest|
      {
        var channel :| channel in rest;
        var sent := channel.TrySend(hint);
        rest := rest - {channel};
      }
    }
  }
}
