/** The sync endpoint: it serves the commands in order, then reads the current session and a page of events. */
module SyncHandler {
  import opened Domain
  import opened Tables
  import opened Paging
  import opened StoreInvariant
  import opened SyncMessages
  import opened SyncEffects
  import Store

  /** Invalid stands for a malformed request, Unavailable for a status of 500. */
  datatype Response = Sent(reply: Reply) | Invalid | Unavailable

  class Api {
    const store: Store.Store

    constructor (store: Store.Store)
      ensures this.store == store
    {
      this.store := store;
    }

    /** A command that never reaches the store. */
    method Refused(id: Uuid, code: Code, now: Time) returns (result: Option<Result>)
      requires store.Valid() && store.clock <= now
      modifies store
      ensures store.Valid() && store.clock == now && store.cursors == old(store.cursors)
      ensures store.Db() == old(store.Db())
      ensures result == Some(Rejected(id, code))
    {
      InvLater(store.Db(), store.clock, now);
      store.clock := now;
      result := Some(Rejected(id, code));
    }

    /** A call of the store, with its answer as a result line. */
    method Performed(id: Uuid, call: Call, now: Time) returns (result: Option<Result>)
      requires store.Valid() && store.clock <= now
      modifies store
      ensures store.Valid() && store.clock == now && old(store.cursors) <= store.cursors
      ensures store.Db() == Execute(old(store.Db()), call, now).0
      ensures result == ResultOf(id, Execute(old(store.Db()), call, now).1)
    {
      var answer := store.Handle(call, now);
      result := ResultOf(id, answer);
    }

    /** The switch over command types: checks of the fields, then the call, or a refusal. */
    method ApplySyncCommand(who: Identity, command: Command, freshSid: Uuid, freshId: Uuid, now: Time)
        returns (result: Option<Result>)
      requires store.Valid() && store.clock <= now
      modifies store
      ensures store.Valid() && store.clock == now && old(store.cursors) <= store.cursors
      ensures (store.Db(), result) == Serve(old(store.Db()), who, command, freshSid, freshId, now)
      ensures (who.account, command.id) !in old(store.keys) ==>
                ServedAs(old(store.Db()), who, command, freshSid, freshId, now, store.Db(), result)
    {
      hide ServedAs, Execute, Inv;
      if (who.account, command.id) !in store.keys {
        ServeDoes(store.Db(), store.clock, who, command, freshSid, freshId, now);
      }
      if command.id == NIL {
        result := Refused(command.id, InvalidCommandCode, now);
        return;
      }
      match command.kind {
        case StartCommand =>
          var sid := freshSid;
          if command.entity.Some? && command.entity.value != NIL {
            sid := command.entity.value;
          }
          result := Performed(command.id, CStart(who, command.id, sid), now);
        case ImportCommand =>
          if command.entity.None? || command.entity.value == NIL {
            result := Refused(command.id, ValidationCode, now);
            return;
          }
          var startedAt, completedAt := ZERO_TIME, ZERO_TIME;
          match command.body {
            case NoBody =>
              result := Refused(command.id, ValidationCode, now);
              return;
            case SoloBody(started, completed) =>
              startedAt, completedAt := started, completed;
            case TextBody(_) =>
            case OtherBody =>
          }
          result := Performed(command.id, CImport(who, command.id, command.entity.value, startedAt, completedAt), now);
        case ActCommand(action) =>
          if action.Expire? {
            result := Refused(command.id, UnsupportedCode, now);
            return;
          }
          if command.entity.None? || command.expected.None? || command.expected.value < 1 {
            result := Refused(command.id, ValidationCode, now);
            return;
          }
          result := Performed(
            command.id, CTransition(who, command.id, command.entity.value, command.expected.value, action), now);
        case NoteCommand =>
          if command.entity.None? {
            result := Refused(command.id, ValidationCode, now);
            return;
          }
          var text := "";
          if command.body.TextBody? {
            text := command.body.text;
          }
          if |text| < 1 || |text| > 120 {
            result := Refused(command.id, ValidationCode, now);
            return;
          }
          result := Performed(command.id, CNote(who, command.id, command.entity.value, freshId, text), now);
        case CheerCommand =>
          if command.entity.None? {
            result := Refused(command.id, ValidationCode, now);
            return;
          }
          result := Performed(command.id, CCheer(who, command.id, command.entity.value, freshId), now);
        case UnknownCommand =>
          result := Refused(command.id, UnsupportedCode, now);
      }
    }

    /** The command loop: the results in order, or nothing once a command makes the request fail. */
    method ServeCommands(who: Identity, commands: seq<Command>, drawn: seq<(Uuid, Uuid)>, now: Time)
        returns (served: Option<seq<Result>>)
      requires store.Valid() && store.clock <= now && |drawn| == |commands|
      modifies store
      ensures store.Valid() && store.clock == now && old(store.cursors) <= store.cursors
      ensures (store.Db(), served) == ServeAll(old(store.Db()), who, commands, drawn, now)
    {
      ghost var db := store.Db();
      var results := [];
      var i := 0;
      InvLater(db, store.clock, now);
      store.clock := now;
      assert (db, Some(results)) == ServeAll(db, who, commands[..0], drawn[..0], now);
      hide Inv, Serve, ServeAll;
      while i < |commands|
        invariant 0 <= i <= |commands| && store.Valid() && store.clock == now && old(store.cursors) <= store.cursors
        invariant (store.Db(), Some(results)) == ServeAll(db, who, commands[..i], drawn[..i], now)
      {
        ServeAllNext(db, who, commands, drawn, now, i);
        var result := ApplySyncCommand(who, commands[i], drawn[i].0, drawn[i].1, now);
        if result.None? {
          ServeAllFails(db, who, commands, drawn, now, i + 1);
          return None;
        }
        results := results + [result.value];
        i := i + 1;
      }
      assert commands[..i] == commands && drawn[..i] == drawn;
      served := Some(results);
    }

    method Sync(who: Identity, cursor: int, limit: int, commands: seq<Command>, drawn: seq<(Uuid, Uuid)>, now: Time)
        returns (response: Response)
      requires store.Valid() && store.clock <= now && |drawn| == |commands|
      modifies store
      ensures store.Valid() && old(store.cursors) <= store.cursors
      ensures response.Invalid? <==> cursor < 0 || |commands| > 100 || limit < 0 || limit > 500
      ensures response.Invalid? ==> store.Db() == old(store.Db()) && store.cursors == old(store.cursors)
      ensures !response.Invalid? ==> store.clock == now
      ensures response.Unavailable? ==> store.Db() == ServeAll(old(store.Db()), who, commands, drawn, now).0
      ensures !response.Invalid? ==>
                (response.Unavailable? <==> ServeAll(old(store.Db()), who, commands, drawn, now).1.None?)
      ensures response.Sent? ==>
                var (served, results) := ServeAll(old(store.Db()), who, commands, drawn, now);
                response.reply.results == results.value &&
                Answers(served, store.Db(), store.cursors, who, cursor, if limit == 0 then 200 else limit, now,
                        response.reply)
    {
      if cursor < 0 || |commands| > 100 { return Invalid; }
      var bound := if limit == 0 then 200 else limit;
      if bound < 1 || bound > 500 { return Invalid; }
      hide Inv, Serve, ServeAll, Answers;
      var results := ServeCommands(who, commands, drawn, now);
      if results.None? { return Unavailable; }
      var reply := Finish(who, cursor, bound, results.value, now);
      response := Sent(reply);
    }

    /** The two reads. */
    method Finish(who: Identity, cursor: nat, bound: nat, results: seq<Result>, now: Time) returns (reply: Reply)
      requires store.Valid() && store.clock <= now && 1 <= bound <= 500
      modifies store
      ensures store.Valid() && store.clock == now && old(store.cursors) <= store.cursors
      ensures reply.results == results
      ensures Answers(old(store.Db()), store.Db(), store.cursors, who, cursor, bound, now, reply)
    {
      hide Inv, IsPage;
      CurrentAnswers(store.Db(), who, now);
      var answer := store.Handle(CCurrent(who), now);
      var events, next := store.PairEvents(who, cursor, bound);
      reply := Reply(results, events, answer.session, next, |events| == bound);
    }
  }

  /** What the two reads put into a reply, and the sweep that the first one leaves behind. */
  ghost predicate Answers(db: Core, db': Core, cursors: seq<nat>, who: Identity, cursor: int, bound: int, now: Time,
                          reply: Reply) {
    (db', Current(reply.current)) == CurrentSession(db, who, now) &&
    reply.hasMore == (|reply.events| == bound) &&
    |cursors| == |db'.log| && cursor >= 0 && bound >= 0 &&
    if who.pair.None? then reply.events == [] && reply.next == cursor
    else IsPage(db'.log, cursors, who.pair.value, cursor, bound, reply.events, reply.next)
  }

  lemma CurrentAnswers(db: Core, who: Identity, now: Time)
    ensures Execute(db, CCurrent(who), now) == CurrentSession(db, who, now) && CurrentSession(db, who, now).1.Current?
  {
  }

  lemma ServeAllNext(db: Core, who: Identity, commands: seq<Command>, drawn: seq<(Uuid, Uuid)>, now: Time, i: nat)
    requires |drawn| == |commands| && i < |commands| && ServeAll(db, who, commands[..i], drawn[..i], now).1.Some?
    ensures var (db1, results) := ServeAll(db, who, commands[..i], drawn[..i], now);
            var (db2, r) := Serve(db1, who, commands[i], drawn[i].0, drawn[i].1, now);
            ServeAll(db, who, commands[..i + 1], drawn[..i + 1], now) ==
            (db2, if r.None? then None else Some(results.value + [r.value]))
  {
    hide Serve;
    assert commands[..i + 1][..i] == commands[..i] && drawn[..i + 1][..i] == drawn[..i];
  }

  /** A batch that fails at one command fails as a whole, with the effects up to there. */
  lemma {:induction false} ServeAllFails(db: Core, who: Identity, commands: seq<Command>, drawn: seq<(Uuid, Uuid)>,
                                         now: Time, n: nat)
    requires |drawn| == |commands| && n <= |commands| && ServeAll(db, who, commands[..n], drawn[..n], now).1.None?
    ensures ServeAll(db, who, commands, drawn, now) == ServeAll(db, who, commands[..n], drawn[..n], now)
  {
    hide Serve;
    if n == |commands| {
      assert commands[..n] == commands && drawn[..n] == drawn;
    } else {
      var m := |commands| - 1;
      assert commands[..m][..n] == commands[..n] && drawn[..m][..n] == drawn[..n];
      ServeAllFails(db, who, commands[..m], drawn[..m], now, n);
    }
  }
}
