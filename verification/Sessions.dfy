/** One connection: commands go out one by one, and any of them may be refused or lost. */
module Sessions {
  import opened Collections
  import opened DependencyOrder
  import opened Migrations
  import opened History
  import opened Ledger
  import opened Registry
  import opened Transactions

  /** What becomes of one command: carried out, answered with an error, or the connection goes down
      before or after the server has carried it out. A statement outside a transaction may also remain
      unanswered on a connection that goes on working; a command in one then counts as lost with its
      connection. When no more replies are given, commands are carried out. */
  datatype Reply = Obeyed | Refused | LostBefore | LostAfter | Unheard(tookEffect: bool)

  /** What a client learns of a nontransactional statement. */
  datatype Learned = Completed | Rejected | Unanswered

  /** What may be left of a statement nobody heard of again. */
  predicate Perhaps(t: Tables, run: RunId, id: Id, after: Tables) {
    after == t || after == WithSent(t, run, id) || after == WithLanded(WithSent(t, run, id), run, id)
  }

  class Session {
    var server: Server
    var alive: bool
    var replies: seq<Reply>

    constructor (durable: Tables, replies: seq<Reply>)
      ensures server == Server(durable, None) && alive && this.replies == replies
    {
      this.server, this.alive, this.replies := Server(durable, None), true, replies;
    }

    /** A connection that is down has no transaction open. */
    ghost predicate Valid()
      reads this
    {
      !alive ==> server.tx.None?
    }

    /** Nothing is going to go wrong with the connection. */
    ghost predicate Obedient()
      reads this
    {
      alive && forall reply | reply in replies :: reply == Obeyed
    }

    /** The next command meets with `reply`, and nothing is going to go wrong after that. */
    ghost predicate ObedientAfter(reply: Reply)
      reads this
    {
      alive && replies != [] && replies[0] == reply && forall later | later in replies[1..] :: later == Obeyed
    }

    method NextReply() returns (reply: Reply)
      modifies this`replies
      ensures old(Obedient()) ==> Obedient() && reply == Obeyed
      ensures old(replies) != [] ==> reply == old(replies)[0] && replies == old(replies)[1..]
    {
      if replies == [] {
        return Obeyed;
      }
      assert replies[0] in replies && forall r | r in replies[1..] :: r in replies;
      reply, replies := replies[0], replies[1..];
    }

    /** Sends one command and waits for its answer. */
    method Send(c: Command) returns (ok: bool)
      requires Valid()
      modifies this
      ensures Valid()
      ensures old(Obedient()) ==> Obedient() && (Exec(old(server), c).Some? ==> ok)
      ensures ok ==> old(alive) && alive && Exec(old(server), c) == Some(server)
      ensures !ok && alive ==>
        old(alive) && c != RollbackTx && server == (if c == CommitTx then old(server).(tx := None) else old(server))
      ensures !old(alive) ==> server == old(server)
      ensures !ok && !alive ==> server.tx.None?
      ensures !ok && !alive ==>
        (server.durable == old(server.durable)
         || (Exec(old(server), c).Some? && server.durable == Exec(old(server), c).value.durable))
    {
      if !alive {
        return false;
      }
      var reply := NextReply();
      var executed := Exec(server, c);
      if reply == LostBefore || reply == Unheard(false) {
        server, alive := server.(tx := None), false;
        return false;
      }
      if reply == LostAfter || reply == Unheard(true) {
        server, alive := (if executed.Some? then executed.value else server).(tx := None), false;
        return false;
      }
      if executed.None? || (reply == Refused && c != RollbackTx) {
        if c == CommitTx {
          server := server.(tx := None);
        }
        return false;
      }
      server := executed.value;
      return true;
    }

    /** A script, sent as one text inside a transaction; the server stops at the first error. */
    method SendAll(commands: seq<Command>) returns (ok: bool)
      requires Valid() && server.tx.Some? && forall c | c in commands :: Private(c)
      modifies this
      ensures Valid() && server.durable == old(server.durable)
      ensures old(Obedient()) ==> Obedient() && (RunPrivately(old(server.tx.value), commands).Some? ==> ok)
      ensures ok ==> alive && server.tx.Some? && RunPrivately(old(server.tx.value), commands) == server.tx
    {
      var i := 0;
      while i < |commands|
        invariant 0 <= i <= |commands|
        invariant Valid() && alive && server.tx.Some? && server.durable == old(server.durable)
        invariant old(Obedient()) ==> Obedient()
        invariant RunPrivately(old(server.tx.value), commands) == RunPrivately(server.tx.value, commands[i..])
      {
        assert commands[i..][0] == commands[i] && commands[i] in commands && commands[i..][1..] == commands[i + 1..];
        var sent := Send(commands[i]);
        if !sent {
          return false;
        }
        i := i + 1;
      }
      return true;
    }

    /** Gives up an open transaction. */
    method Abandon()
      requires Valid()
      modifies this
      ensures Valid() && server == old(server).(tx := None)
      ensures old(Obedient()) ==> Obedient()
    {
      if server.tx.Some? {
        var _ := Send(RollbackTx);
      }
    }

    /** A nontransactional statement: sent on its own, it takes effect or it does not, and the answer
        may never arrive. */
    method SendStandalone(run: RunId, id: Id) returns (answer: Learned)
      requires Valid() && server.tx.None?
      modifies this
      ensures Valid() && server.tx.None?
      ensures old(Obedient()) ==> Obedient() && answer == Completed
      ensures answer == Completed ==> alive && server.durable == WithLanded(WithSent(old(server.durable), run, id), run, id)
      ensures answer == Rejected ==> alive && server.durable == WithSent(old(server.durable), run, id)
      ensures answer == Unanswered ==>
        Perhaps(old(server.durable), run, id, server.durable) && (server.durable == old(server.durable) ==> !alive)
      ensures alive ==> old(alive)
      ensures old(ObedientAfter(Refused)) ==> Obedient() && answer == Rejected
      ensures forall took | old(ObedientAfter(Unheard(took))) ::
        && Obedient() && answer == Unanswered
        && server.durable == (if took then WithLanded(WithSent(old(server.durable), run, id), run, id) else WithSent(old(server.durable), run, id))
    {
      if !alive {
        return Unanswered;
      }
      var reply := NextReply();
      server := server.(durable := WithSent(server.durable, run, id));
      match reply
      case Obeyed =>
        server := server.(durable := WithLanded(server.durable, run, id));
        return Completed;
      case Refused => return Rejected;
      case LostBefore =>
        alive := false;
        return Unanswered;
      case LostAfter =>
        server, alive := server.(durable := WithLanded(server.durable, run, id)), false;
        return Unanswered;
      case Unheard(tookEffect) =>
        if tookEffect {
          server := server.(durable := WithLanded(server.durable, run, id));
        }
        return Unanswered;
    }
  }
}
