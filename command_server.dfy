/** The command intake and execution of MotorServer/Server.cs.
    The socket results become parameters, the responses written to the client's
    stream become abstract tags (without timestamps) in an action log, and the
    concurrent loops run one after the other. */
module CommandServer {

  import opened Strings

  /** The Command enum. */
  datatype Command = None | RotateCW | RotateCCW | Quit

  /** The numeric values of the enum. */
  function Code(c: Command): int
  {
    match c
    case None => 0
    case RotateCW => 1
    case RotateCCW => 2
    case Quit => 3
  }

  /** The enum values are 0..3, one per command. */
  lemma CodeIsEnumValue(c: Command, d: Command)
    ensures 0 <= Code(c) <= 3
    ensures Code(c) == Code(d) ==> c == d
  {
  }

  /** ParseCommand: an exact, case-sensitive match against a three-word lexicon;
      anything else is None. */
  function ParseCommand(raw: string): (c: Command)
    ensures c == RotateCW <==> raw == "komanda 1"
    ensures c == RotateCCW <==> raw == "komanda 2"
    ensures c == Quit <==> raw == "quit"
    ensures c == None <==> raw != "komanda 1" && raw != "komanda 2" && raw != "quit"
  {
    if raw == "komanda 1" then RotateCW
    else if raw == "komanda 2" then RotateCCW
    else if raw == "quit" then Quit
    else None
  }

  /** The rotate lines the client sends ("RCW <speed> <duration>",
      "RCCW <speed> <duration>") are not in this lexicon: they parse to None. */
  lemma ClientRotateLinesParseToNone(args: string)
    ensures ParseCommand("RCW " + args) == None
    ensures ParseCommand("RCCW " + args) == None
  {
    assert ("RCW " + args)[0] == 'R';
    assert ("RCCW " + args)[0] == 'R';
  }

  // ---------------------------------------------------------------------------
  // Decoding a read

  newtype byte = x: int | 0 <= x < 256

  /** Size of the buffer each read fills. */
  const BufferSize: int := 1024

  /** Encoding.ASCII.GetString: bytes above 0x7F decode to '?'. */
  function DecodeAscii(bytes: seq<byte>): (s: string)
  {
    seq(|bytes|, i requires 0 <= i < |bytes| => if bytes[i] < 128 then (bytes[i] as int) as char else '?')
  }

  /** A decoded character is NUL exactly where the byte was 0. */
  lemma DecodeNulIffZero(bytes: seq<byte>, i: int)
    requires 0 <= i < |bytes|
    ensures |DecodeAscii(bytes)| == |bytes|
    ensures DecodeAscii(bytes)[i] == '\0' <==> bytes[i] == 0
  {
  }

  /** The buffer after a read of `chunk`: the bytes read, then the zeros the fresh buffer held. */
  function ReadBuffer(chunk: seq<byte>): (buf: seq<byte>)
    requires |chunk| <= BufferSize
    ensures |buf| == BufferSize
  {
    chunk + seq(BufferSize - |chunk|, _ => 0)
  }

  /** The zero padding never reaches the text: the received text is the read
      bytes' text up to their first NUL. */
  lemma ReceivedTextIgnoresPadding(chunk: seq<byte>)
    requires |chunk| <= BufferSize
    ensures FirstField(DecodeAscii(ReadBuffer(chunk)), '\0') == FirstField(DecodeAscii(chunk), '\0')
  {
    var s := DecodeAscii(ReadBuffer(chunk));
    var r := FirstField(DecodeAscii(chunk), '\0');
    assert DecodeAscii(chunk) == s[..|chunk|];
    if |r| == |chunk| && |chunk| < BufferSize {
      assert s[|r|] == '\0';
    }
    FirstFieldUnique(s, '\0', r);
  }

  /** What one successful read contributes to the task queue. */
  datatype Intake = Dropped | Enqueued(cmd: Command)

  /** The body of ListenForCommandsLoop for one read: a buffer whose first byte is 0
      is skipped; otherwise its text up to the first NUL is parsed. */
  function ReadCommand(chunk: seq<byte>): (r: Intake)
    requires |chunk| <= BufferSize
    ensures r == Dropped <==> |chunk| == 0 || chunk[0] == 0
    ensures r.Enqueued? ==> r.cmd == ParseCommand(FirstField(DecodeAscii(chunk), '\0'))
  {
    var buf := ReadBuffer(chunk);
    if buf[0] == 0 then Dropped
    else
      ReceivedTextIgnoresPadding(chunk);
      Enqueued(ParseCommand(FirstField(DecodeAscii(buf), '\0')))
  }

  /** Outcome of one ReadAsync on the client's stream. */
  datatype ReadResult = Bytes(chunk: seq<byte>) | Failure

  /** No read returns more than the buffer holds. */
  ghost predicate WellSized(results: seq<ReadResult>)
  {
    forall k :: 0 <= k < |results| && results[k].Bytes? ==> |results[k].chunk| <= BufferSize
  }

  /** The commands one successful read enqueues: none or one. */
  function Intaken(chunk: seq<byte>): (cs: seq<Command>)
    requires |chunk| <= BufferSize
  {
    match ReadCommand(chunk) case Dropped => [] case Enqueued(c) => [c]
  }

  /** The commands a run of reads enqueues: reads stop at the first failure,
      which drops the client. */
  function IntakeAll(results: seq<ReadResult>): seq<Command>
    requires WellSized(results)
  {
    if |results| == 0 then []
    else match results[0]
      case Failure => []
      case Bytes(chunk) => Intaken(chunk) + IntakeAll(results[1..])
  }

  /** Unfolding IntakeAll at position k of a run of reads. */
  lemma IntakeAllAt(results: seq<ReadResult>, k: int)
    requires WellSized(results) && 0 <= k < |results|
    ensures WellSized(results[k..]) && WellSized(results[k + 1..])
    ensures results[k].Failure? ==> IntakeAll(results[k..]) == []
    ensures results[k].Bytes? ==> |results[k].chunk| <= BufferSize
    ensures results[k].Bytes? ==>
      IntakeAll(results[k..]) == Intaken(results[k].chunk) + IntakeAll(results[k + 1..])
  {
    assert results[k..][1..] == results[k + 1..];
    assert results[k..][0] == results[k];
  }

  /** One successful read moves its commands from the pending reads to the queue. */
  lemma ListenStep(queue: seq<Command>, results: seq<ReadResult>, k: int)
    requires WellSized(results) && 0 <= k < |results| && results[k].Bytes?
    ensures |results[k].chunk| <= BufferSize && WellSized(results[k..]) && WellSized(results[k + 1..])
    ensures (queue + Intaken(results[k].chunk)) + IntakeAll(results[k + 1..]) == queue + IntakeAll(results[k..])
  {
    IntakeAllAt(results, k);
  }

  // ---------------------------------------------------------------------------
  // Execution

  /** The responses written to the client (timestamps left out). */
  datatype Response = NoCommandSent | Starting(n: int) | Completed(n: int)

  /** What ExecuteLoop does, in order: write a response, or run a motor function. */
  datatype Action = Send(response: Response) | RunMotorFunction(n: int)

  /** What ExecuteLoop does for one command. */
  function Execution(c: Command): seq<Action>
  {
    match c
    case None => [Send(NoCommandSent)]
    case RotateCW => [Send(Starting(1)), RunMotorFunction(1), Send(Completed(1))]
    case RotateCCW => [Send(Starting(2)), RunMotorFunction(2), Send(Completed(2))]
    case Quit => []
  }

  /** What ExecuteLoop does for a queue of commands, taken front first. */
  function ExecutionOf(cs: seq<Command>): seq<Action>
  {
    if |cs| == 0 then [] else Execution(cs[0]) + ExecutionOf(cs[1..])
  }

  /** The responses among some actions. */
  function Responses(actions: seq<Action>): seq<Response>
  {
    if |actions| == 0 then []
    else (if actions[0].Send? then [actions[0].response] else []) + Responses(actions[1..])
  }

  lemma {:induction false} ResponsesAppend(a: seq<Action>, b: seq<Action>)
    ensures Responses(a + b) == Responses(a) + Responses(b)
  {
    if |a| > 0 {
      ResponsesAppend(a[1..], b);
      assert (a + b)[1..] == a[1..] + b;
    } else {
      assert a + b == b;
    }
  }

  /** A rotate command is bracketed by exactly two responses around its motor
      function; None answers exactly once; Quit writes nothing. */
  lemma ResponsesPerCommand(c: Command)
    ensures c == RotateCW ==> Responses(Execution(c)) == [Starting(1), Completed(1)]
    ensures c == RotateCCW ==> Responses(Execution(c)) == [Starting(2), Completed(2)]
    ensures c == None ==> Responses(Execution(c)) == [NoCommandSent]
    ensures c == Quit ==> Responses(Execution(c)) == []
  {
    match c
    case RotateCW =>
      var e := Execution(c);
      assert e[1..][1..][1..] == [];
      assert Responses(e[1..][1..]) == [Completed(1)];
    case RotateCCW =>
      var e := Execution(c);
      assert e[1..][1..][1..] == [];
      assert Responses(e[1..][1..]) == [Completed(2)];
    case None =>
      assert Execution(c)[1..] == [];
    case Quit =>
  }

  /** Execution is strictly in queue order: running a queue is running its front
      part and then its back part. */
  lemma {:induction false} ExecutionOfAppend(a: seq<Command>, b: seq<Command>)
    ensures ExecutionOf(a + b) == ExecutionOf(a) + ExecutionOf(b)
  {
    if |a| > 0 {
      ExecutionOfAppend(a[1..], b);
      assert (a + b)[1..] == a[1..] + b;
    } else {
      assert a + b == b;
    }
  }

  lemma ExecutionOfSnoc(cs: seq<Command>, c: Command)
    ensures ExecutionOf(cs + [c]) == ExecutionOf(cs) + Execution(c)
  {
    ExecutionOfAppend(cs, [c]);
  }

  /** The server's state: whether a client is connected (client != null), the task
      queue, and the log of what execution has done. */
  class Server {
    var connected: bool
    var taskQueue: seq<Command>
    ghost var log: seq<Action>

    constructor ()
      ensures !connected && taskQueue == [] && log == []
    {
      connected := false;
      taskQueue := [];
      log := [];
    }

    /** ListenForConnections when the accept succeeds: the accepted client becomes
        the current one; the queue is left as it is. */
    method Connect()
      modifies this`connected
      ensures connected
    {
      connected := true;
    }

    /** One pass of ListenForCommandsLoop while a client is connected: a failed
        read drops the client; otherwise the parsed command, if any, goes to the
        back of the task queue. */
    method ReceiveRead(r: ReadResult)
      requires connected
      requires r.Bytes? ==> |r.chunk| <= BufferSize
      modifies this`connected, this`taskQueue
      ensures connected == r.Bytes?
      ensures taskQueue == old(taskQueue) + (if r.Bytes? then Intaken(r.chunk) else [])
    {
      match r
      case Failure =>
        connected := false;
      case Bytes(chunk) =>
        var buf := ReadBuffer(chunk);
        if buf[0] == 0 {
          return;
        }
        var dataFromClient := FirstField(DecodeAscii(buf), '\0');
        ReceivedTextIgnoresPadding(chunk);
        taskQueue := taskQueue + [ParseCommand(dataFromClient)];
    }

    /** ListenForCommandsLoop over a run of reads: it reads while the client
        stays connected. */
    method ListenForCommands(results: seq<ReadResult>)
      requires connected && WellSized(results)
      modifies this`connected, this`taskQueue
      ensures taskQueue == old(taskQueue) + IntakeAll(results)
      ensures connected == (Failure !in results)
    {
      ghost var goal := old(taskQueue) + IntakeAll(results);
      var k := 0;
      while k < |results| && connected
        invariant 0 <= k <= |results|
        invariant connected ==> forall m :: 0 <= m < k ==> results[m].Bytes?
        invariant connected ==> taskQueue + IntakeAll(results[k..]) == goal
        invariant !connected ==> taskQueue == goal && Failure in results
      {
        var r := results[k];
        ghost var before := taskQueue;
        IntakeAllAt(results, k);
        ReceiveRead(r);
        if r.Bytes? {
          ListenStep(before, results, k);
          assert taskQueue + IntakeAll(results[k + 1..]) == goal;
        } else {
          assert taskQueue == before && IntakeAll(results[k..]) == [];
          assert before + [] == before;
          assert results[k] in results;
        }
        k := k + 1;
      }
      if connected {
        assert Failure !in results;
      }
    }

    /** The body of ExecuteLoop for one command: the responses around the motor
        function for a rotate command, "No command sent." for None, and a
        dropped client for Quit. */
    method Handle(cmd: Command)
      modifies this`connected, this`log
      ensures log == old(log) + Execution(cmd)
      ensures connected == (old(connected) && cmd != Quit)
    {
      match cmd {
        case None =>
          log := log + [Send(NoCommandSent)];
        case RotateCW =>
          log := log + [Send(Starting(1))];
          log := log + [RunMotorFunction(1)];
          log := log + [Send(Completed(1))];
        case RotateCCW =>
          log := log + [Send(Starting(2))];
          log := log + [RunMotorFunction(2)];
          log := log + [Send(Completed(2))];
        case Quit =>
          connected := false;
      }
    }

    /** One drain of ExecuteLoop: the front command is handled and then removed,
        until the queue is empty. Quit drops the client. */
    method ExecutePending()
      modifies this`connected, this`taskQueue, this`log
      ensures taskQueue == []
      ensures log == old(log) + ExecutionOf(old(taskQueue))
      ensures connected == (old(connected) && Quit !in old(taskQueue))
    {
      ghost var done: seq<Command> := [];
      while |taskQueue| > 0
        invariant old(taskQueue) == done + taskQueue
        invariant log == old(log) + ExecutionOf(done)
        invariant connected == (old(connected) && Quit !in done)
        decreases |taskQueue|
      {
        var cmd := taskQueue[0];
        Handle(cmd);
        ExecutionOfSnoc(done, cmd);
        assert (Quit in done + [cmd]) == (Quit in done || cmd == Quit);
        assert done + taskQueue == (done + [cmd]) + taskQueue[1..];
        done := done + [cmd];
        taskQueue := taskQueue[1..];
      }
      assert done == old(taskQueue);
    }
  }
}
