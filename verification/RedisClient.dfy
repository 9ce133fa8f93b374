/** One Redis command: connecting, sending, and classifying the outcome
    (src/Data/Redis/Connection.cpp). The network and the server are a script that
    says what happens; the server is assumed to answer honestly. */
module RedisClient {
  import opened Prelude

  datatype Status = Ok | Stopped | IoError | TimedOut | InternalError | ResultTooLarge | OutcomeUnknown

  datatype Operation = Get | Set | Delete

  datatype Call = Call(op: Operation, key: Bytes, value: Bytes, ttl: nat)

  datatype Completion = Completion(status: Status, found: bool, affected: nat, value: Bytes)

  type Database = map<Bytes, Bytes>

  // The database after the server has run a command. Keys do not expire here.
  function Applied(db: Database, call: Call): Database
  {
    match call.op
    case Get => db
    case Set => db[call.key := call.value]
    case Delete => db - {call.key}
  }

  datatype Reply = StatusReply(isOk: bool) | ErrorReply | NilReply | StringReply(value: Bytes) | IntegerReply(n: int)

  function Answer(db: Database, call: Call): Reply
  {
    match call.op
    case Get => if call.key in db then StringReply(db[call.key]) else NilReply
    case Set => StatusReply(true)
    case Delete => IntegerReply(if call.key in db then 1 else 0)
  }

  // What became of a command that was sent: the server ran it while the client
  // waited, may still run it later, or never will.
  datatype Fate = Ran | Floating | Lost

  datatype Throw = Nowhere | BeforeSending | WhileSending

  // connect is None when the socket is open already, and auth when no password
  // is configured.
  datatype Script = Script(cancelledFirst: bool, connect: Option<Status>, auth: Option<(Status, bool)>,
                           cancelledLater: bool, command: Status, reply: Reply, fate: Fate, throws: Throw)

  predicate Writes(call: Call) { call.op != Get }

  // A reply that cannot be an answer to the command.
  predicate Misfit(call: Call, reply: Reply)
  {
    match call.op
    case Get => !reply.NilReply? && !reply.StringReply? && !reply.ErrorReply?
    case Set => reply != StatusReply(true) && !reply.ErrorReply?
    case Delete => !(reply.IntegerReply? && 0 <= reply.n <= 1) && !reply.ErrorReply?
  }

  // A reply means that the command has run, or was rejected and will not run.
  // Nothing is assumed of a reply that fits no command.
  predicate Honest(db: Database, call: Call, s: Script)
  {
    s.command == Ok && s.throws == Nowhere ==>
      || (s.reply == ErrorReply && s.fate == Lost)
      || (s.reply == Answer(db, call) && s.fate == Ran)
      || Misfit(call, s.reply)
  }

  function Failed(status: Status): Completion { Completion(status, false, 0, []) }

  // Whether the command reaches the point after which it may have been sent.
  predicate Sends(s: Script)
  {
    && !s.cancelledFirst && s.throws != BeforeSending
    && (s.connect.Some? ==> s.connect.value == Ok && (s.auth.Some? ==> s.auth.value == (Ok, true)))
    && !s.cancelledLater
  }

  function Conclude(maxValue: nat, call: Call, reply: Reply): Completion
  {
    if reply == ErrorReply then Failed(IoError)
    else
      match call.op
      case Get =>
        if reply == NilReply then Completion(Ok, false, 0, [])
        else if !reply.StringReply? then Failed(IoError)
        else if |reply.value| > maxValue then Failed(ResultTooLarge)
        else Completion(Ok, true, 0, reply.value)
      case Delete =>
        if !reply.IntegerReply? || reply.n < 0 || reply.n > 1 then Failed(OutcomeUnknown)
        else Completion(Ok, false, reply.n, [])
      case Set =>
        if reply == StatusReply(true) then Completion(Ok, false, 1, []) else Failed(OutcomeUnknown)
  }

  function Execute(maxValue: nat, call: Call, s: Script): Completion
  {
    if s.cancelledFirst then Failed(Stopped)
    else if s.throws == BeforeSending then Failed(InternalError)
    else if s.connect.Some? && s.connect.value != Ok then Failed(s.connect.value)
    else if s.connect.Some? && s.auth.Some? && (s.auth.value.0 != Ok || !s.auth.value.1) then
      Failed(if s.auth.value.0 == Ok then IoError else s.auth.value.0)
    else if s.cancelledLater then Failed(Stopped)
    else if s.throws == WhileSending then Failed(if Writes(call) then OutcomeUnknown else InternalError)
    else if s.command != Ok then Failed(if Writes(call) then OutcomeUnknown else s.command)
    else Conclude(maxValue, call, s.reply)
  }

  // The set-up steps never answer with the status kept for writes.
  predicate Plain(s: Script)
  {
    && (s.connect.Some? ==> s.connect.value != OutcomeUnknown)
    && (s.auth.Some? ==> s.auth.value.0 != OutcomeUnknown)
    && s.command != OutcomeUnknown
  }

  /** The status says what happened at the server: Ok means that the command ran
      while the client waited and that the answer is the server's; unknown is said
      only of a write, which may have run or may still run; every other status of a
      write means that it has not run and will not. */
  lemma StatusTellsTheFate(maxValue: nat, db: Database, call: Call, s: Script)
    requires Honest(db, call, s) && Plain(s)
    ensures
      var c := Execute(maxValue, call, s);
      && (c.status == Ok ==> Sends(s) && s.fate == Ran)
      && (c.status == OutcomeUnknown ==> Writes(call) && Sends(s))
      && (Writes(call) && c.status != Ok && c.status != OutcomeUnknown ==> !Sends(s) || s.fate == Lost)
  {
  }

  /** A successful read returns what the database holds, within the limit; a
      successful delete counts exactly the key it removed. */
  lemma AnswersAreTheServers(maxValue: nat, db: Database, call: Call, s: Script)
    requires Honest(db, call, s) && Execute(maxValue, call, s).status == Ok
    ensures
      var c := Execute(maxValue, call, s);
      && (call.op == Get ==> (c.found <==> call.key in db) && (c.found ==> c.value == db[call.key]))
      && (call.op == Set ==> c.affected == 1)
      && (call.op == Delete ==> c.affected == |db| - |Applied(db, call)|)
  {
    if call.op == Delete {
      assert Applied(db, call).Keys == db.Keys - {call.key};
    }
  }

  // The command was answered, by the server's answer to it, and the answer fits.
  predicate Answered(maxValue: nat, db: Database, call: Call, s: Script)
  {
    && Sends(s) && s.throws == Nowhere && s.command == Ok && s.reply == Answer(db, call)
    && (s.reply.StringReply? ==> |s.reply.value| <= maxValue)
  }

  /** Ok is said exactly of a command that was sent and answered: no refused step,
      no lost command, no rejection and no reply of another shape passes for it. */
  lemma OkMeansAnswered(maxValue: nat, db: Database, call: Call, s: Script)
    requires Honest(db, call, s)
    ensures Execute(maxValue, call, s).status == Ok <==> Answered(maxValue, db, call, s)
  {
    if Sends(s) && s.throws == Nowhere && s.command == Ok && s.reply != ErrorReply {
      match call.op
      case Get =>
      case Set =>
      case Delete =>
    }
  }

  /** The outcome is called unknown exactly of a write that may have been sent and got
      no answer that fits it. */
  lemma UnknownMeansInDoubt(maxValue: nat, call: Call, s: Script)
    requires Plain(s)
    ensures Execute(maxValue, call, s).status == OutcomeUnknown <==>
              Writes(call) && Sends(s) && (s.throws == WhileSending || s.command != Ok || Misfit(call, s.reply))
  {
    match call.op
    case Get =>
    case Set =>
    case Delete =>
  }

  /** Of a command that was sent, a read is reported with what went wrong, a rejection
      is an error, a value over the limit is too large, and an answer that fits is Ok. */
  lemma SentSaysWhy(maxValue: nat, call: Call, s: Script)
    requires Sends(s) && Plain(s)
    ensures s.throws == WhileSending && !Writes(call) ==> Execute(maxValue, call, s).status == InternalError
    ensures s.throws == Nowhere && s.command != Ok && !Writes(call) ==> Execute(maxValue, call, s).status == s.command
    ensures s.throws == Nowhere && s.command == Ok && s.reply == ErrorReply ==>
              Execute(maxValue, call, s).status == IoError
    ensures s.throws == Nowhere && s.command == Ok && call.op == Get && s.reply.StringReply? ==>
              Execute(maxValue, call, s).status == if |s.reply.value| > maxValue then ResultTooLarge else Ok
    ensures s.throws == Nowhere && s.command == Ok && call.op == Get && s.reply == NilReply ==>
              Execute(maxValue, call, s) == Completion(Ok, false, 0, [])
    ensures s.throws == Nowhere && s.command == Ok && call.op == Get && s.reply.IntegerReply? ==>
              Execute(maxValue, call, s).status == IoError
  {
  }

  /** A command that was not sent says at which step it ended: a stop seen before or
      after the connection was made, a connection or an authentication that failed, or
      one that was refused. */
  lemma UnsentSaysWhy(maxValue: nat, call: Call, s: Script)
    requires !Sends(s)
    ensures
      var status := Execute(maxValue, call, s).status;
      && (s.cancelledFirst ==> status == Stopped)
      && (!s.cancelledFirst && s.throws == BeforeSending ==> status == InternalError)
      && (!s.cancelledFirst && s.throws != BeforeSending ==>
            match s.connect
            case None => status == Stopped
            case Some(connected) =>
              if connected != Ok then status == connected
              else match s.auth
                   case None => status == Stopped
                   case Some((answer, good)) =>
                     status == if answer != Ok then answer else if !good then IoError else Stopped)
  {
  }

  /** Only a read holds result bytes, and never more than a read may hold. */
  lemma HeldBytes(maxValue: nat, call: Call, s: Script)
    ensures |Execute(maxValue, call, s).value| <= if call.op == Get then maxValue else 0
  {
  }

  // ------------------------------------------------------- the imperative form

  class Request {
    const call: Call
    var completion: Completion

    constructor (call: Call)
      ensures this.call == call && completion == Completion(Ok, false, 0, [])
    {
      this.call, completion := call, Completion(Ok, false, 0, []);
    }

    method Fail(status: Status)
      modifies this
      ensures completion == Failed(status)
    {
      completion := Completion(status, false, 0, []);
    }

    // A fresh request, run under a script.
    method Run(maxValue: nat, s: Script)
      requires completion == Completion(Ok, false, 0, [])
      modifies this
      ensures completion == Execute(maxValue, call, s)
    {
      if s.cancelledFirst {
        Fail(Stopped);
        return;
      }
      if s.throws == BeforeSending {
        Fail(InternalError);
        return;
      }
      if s.connect.Some? {
        if s.connect.value != Ok {
          Fail(s.connect.value);
          return;
        }
        if s.auth.Some? && (s.auth.value.0 != Ok || !s.auth.value.1) {
          Fail(if s.auth.value.0 == Ok then IoError else s.auth.value.0);
          return;
        }
      }
      if s.cancelledLater {
        Fail(Stopped);
        return;
      }
      var writeMayHaveStarted := call.op != Get;
      if s.throws == WhileSending {
        Fail(if writeMayHaveStarted then OutcomeUnknown else InternalError);
        return;
      }
      if s.command != Ok {
        Fail(if writeMayHaveStarted then OutcomeUnknown else s.command);
        return;
      }
      if s.reply == ErrorReply {
        Fail(IoError);
        return;
      }
      if call.op == Get {
        if s.reply == NilReply {
          return;
        }
        if !s.reply.StringReply? {
          Fail(IoError);
          return;
        }
        if |s.reply.value| > maxValue {
          Fail(ResultTooLarge);
          return;
        }
        completion := completion.(value := s.reply.value, found := true);
      } else if call.op == Delete {
        if !s.reply.IntegerReply? || s.reply.n < 0 || s.reply.n > 1 {
          Fail(OutcomeUnknown);
          return;
        }
        completion := completion.(affected := s.reply.n);
      } else if s.reply == StatusReply(true) {
        completion := completion.(affected := 1);
      } else {
        Fail(OutcomeUnknown);
      }
    }
  }
}
