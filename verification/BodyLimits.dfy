// Request-body limits: buffering a whole ASGI body stream under a byte ceiling, then replaying it.
module BodyLimits {
  import opened Common

  const CHUNK: nat := 64 * 1024

  datatype Message = Request(body: seq<byte>, more: bool) | Disconnect | Other

  // ---------------------------------------------------------------------------
  // Buffering
  // ---------------------------------------------------------------------------

  // What the intake loop makes of the messages available so far.
  datatype Intake =
    | TooLarge
    | Waiting
    | Buffered(body: seq<byte>, complete: bool, consumed: nat)

  ghost function BytesOf(messages: seq<Message>): seq<byte> {
    if messages == [] then []
    else (if messages[0].Request? then messages[0].body else []) + BytesOf(messages[1..])
  }

  ghost predicate Ends(m: Message) {
    m.Disconnect? || (m.Request? && !m.more)
  }

  // Index of the message that ends the stream, or the number of messages when none does yet.
  ghost function EndOf(messages: seq<Message>): (e: nat)
    ensures e <= |messages|
    ensures e < |messages| ==> Ends(messages[e])
    ensures forall i | 0 <= i < e :: !Ends(messages[i])
  {
    if messages == [] || Ends(messages[0]) then 0 else 1 + EndOf(messages[1..])
  }

  // The messages the loop may look at: up to and including the one that ends the stream.
  ghost function Relevant(messages: seq<Message>): seq<Message> {
    if EndOf(messages) < |messages| then messages[..EndOf(messages) + 1] else messages
  }

  lemma {:induction false} BytesConcat(a: seq<Message>, b: seq<Message>)
    ensures BytesOf(a + b) == BytesOf(a) + BytesOf(b)
  {
    if a == [] {
      assert a + b == b;
    } else {
      BytesConcat(a[1..], b);
      assert (a + b)[1..] == a[1..] + b;
    }
  }

  lemma BytesSnoc(messages: seq<Message>, i: nat)
    requires i < |messages|
    ensures BytesOf(messages[..i + 1]) ==
            BytesOf(messages[..i]) + if messages[i].Request? then messages[i].body else []
  {
    assert messages[..i + 1] == messages[..i] + [messages[i]];
    BytesConcat(messages[..i], [messages[i]]);
  }

  lemma BytesGrow(messages: seq<Message>, i: nat)
    requires i <= |messages|
    ensures |BytesOf(messages[..i])| <= |BytesOf(messages)|
  {
    assert messages == messages[..i] + messages[i..];
    BytesConcat(messages[..i], messages[i..]);
  }

  // Counts actual bytes and stops at the ceiling, at the end of the body, or at a disconnect.
  method BufferBody(incoming: seq<Message>, limit: nat) returns (r: Intake)
    ensures r.TooLarge? <==> |BytesOf(Relevant(incoming))| > limit
    ensures r.Waiting? <==> |BytesOf(incoming)| <= limit && EndOf(incoming) == |incoming|
    ensures r.Buffered? ==>
      && EndOf(incoming) < |incoming|
      && r.consumed == EndOf(incoming) + 1
      && r.body == BytesOf(incoming[..r.consumed])
      && r.complete == incoming[EndOf(incoming)].Request?
  {
    var body: seq<byte> := [];
    var complete, i := false, 0;
    assert incoming[..0] == [];
    while !complete
      invariant i <= |incoming| && body == BytesOf(incoming[..i]) && |body| <= limit
      invariant !complete ==> i <= EndOf(incoming)
      invariant complete ==> i == EndOf(incoming) + 1 && incoming[i - 1].Request?
      decreases |incoming| - i, !complete
    {
      if i == |incoming| {
        assert incoming[..i] == incoming;
        return Waiting;
      }
      var message := incoming[i];
      BytesSnoc(incoming, i);
      BytesGrow(Relevant(incoming), i + 1);
      assert Relevant(incoming)[..i + 1] == incoming[..i + 1];
      i := i + 1;
      match message {
        case Disconnect =>
          return Buffered(body, false, i);
        case Other =>
        case Request(chunk, more) =>
          if |body| + |chunk| > limit {
            RelevantIsLess(incoming);
            return TooLarge;
          }
          body := body + chunk;
          complete := !more;
      }
    }
    r := Buffered(body, complete, i);
  }

  lemma RelevantIsLess(incoming: seq<Message>)
    ensures |BytesOf(Relevant(incoming))| <= |BytesOf(incoming)|
  {
    if EndOf(incoming) < |incoming| {
      BytesGrow(incoming, EndOf(incoming) + 1);
    }
  }

  // ---------------------------------------------------------------------------
  // Replay
  // ---------------------------------------------------------------------------

  ghost function Chunks(data: seq<byte>, complete: bool): seq<Message> {
    if data == [] then []
    else
      var n := if |data| < CHUNK then |data| else CHUNK;
      [Request(data[..n], n < |data| || !complete)] + Chunks(data[n..], complete)
  }

  ghost function Replayed(body: seq<byte>, complete: bool): seq<Message> {
    if body == [] && complete then [Request([], false)] else Chunks(body, complete)
  }

  lemma {:induction false} ChunksFaithful(data: seq<byte>, complete: bool)
    ensures var ms := Chunks(data, complete);
            && BytesOf(ms) == data
            && (data != [] ==> ms != [])
            && forall i | 0 <= i < |ms| ::
                 && ms[i].Request? && 0 < |ms[i].body| <= 65_536 && (i < |ms| - 1 ==> |ms[i].body| == 65_536)
                 && (ms[i].more <==> i < |ms| - 1 || !complete)
  {
    if data != [] {
      var n := if |data| < CHUNK then |data| else CHUNK;
      ChunksFaithful(data[n..], complete);
      assert data == data[..n] + data[n..];
      assert Chunks(data, complete)[1..] == Chunks(data[n..], complete);
    }
  }

  // The replayed body is the received one, in chunks of 64 KiB but for the last. For a complete body
  // `more` is false on the last message only, and an empty body is one empty message.
  lemma ReplayFaithful(body: seq<byte>, complete: bool)
    ensures var ms := Replayed(body, complete);
            && BytesOf(ms) == body
            && (complete ==> ms != [])
            && (body == [] && complete ==> ms == [Request([], false)])
            && forall i | 0 <= i < |ms| ::
                 && ms[i].Request? && |ms[i].body| <= 65_536 && (i < |ms| - 1 ==> |ms[i].body| == 65_536)
                 && (ms[i].more <==> i < |ms| - 1 || !complete)
  {
    ChunksFaithful(body, complete);
  }

  // The receive callable handed to the application; `incoming` is what the server sends later.
  class ReplayReceive {
    const body: seq<byte>
    const complete: bool
    var position: nat
    var replayedEmpty: bool
    var incoming: seq<Message>

    constructor (body: seq<byte>, complete: bool, incoming: seq<Message>)
      ensures Valid() && Pending() == Replayed(body, complete)
      ensures this.body == body && this.complete == complete && this.incoming == incoming
    {
      this.body, this.complete, this.incoming := body, complete, incoming;
      position, replayedEmpty := 0, false;
      new;
      assert body[0..] == body;
    }

    ghost predicate Valid()
      reads this
    {
      position <= |body|
    }

    ghost function Pending(): seq<Message>
      reads this
      requires Valid()
    {
      if position < |body| then Chunks(body[position..], complete)
      else if body == [] && complete && !replayedEmpty then [Request([], false)]
      else []
    }

    // First the pending replay in order; afterwards the disconnect, or the server's own messages.
    method Receive() returns (m: Option<Message>)
      requires Valid()
      modifies this
      ensures Valid()
      ensures old(Pending()) != [] ==>
        m == Some(old(Pending())[0]) && Pending() == old(Pending())[1..] && incoming == old(incoming)
      ensures old(Pending()) == [] ==> Pending() == []
      ensures old(Pending()) == [] && !complete ==> m == Some(Disconnect) && incoming == old(incoming)
      ensures old(Pending()) == [] && complete ==>
        if old(incoming) == [] then m == None && incoming == []
        else m == Some(old(incoming)[0]) && incoming == old(incoming)[1..]
    {
      var n := if |body| - position < CHUNK then |body| - position else CHUNK;
      var chunk := body[position..position + n];
      if chunk != [] {
        ghost var rest := body[position..];
        assert rest[..n] == chunk && rest[n..] == body[position + n..];
        assert Chunks(rest, complete)[1..] == Chunks(rest[n..], complete);
        position := position + n;
        return Some(Request(chunk, position < |body| || !complete));
      }
      if |body| == 0 && complete && !replayedEmpty {
        replayedEmpty := true;
        return Some(Request([], false));
      }
      if !complete {
        return Some(Disconnect);
      }
      if incoming == [] {
        return None;
      }
      m := Some(incoming[0]);
      incoming := incoming[1..];
    }
  }

  // ---------------------------------------------------------------------------
  // The middleware
  // ---------------------------------------------------------------------------

  // `parsed` holds one entry per Content-Length header: its integer value, if it has one.
  function DeclaredLength(parsed: seq<Option<int>>): Option<nat> {
    if |parsed| == 1 && parsed[0].Some? && parsed[0].value >= 0 then Some(parsed[0].value) else None
  }

  datatype Decision = Reject | AwaitMore | RunApp(replay: ReplayReceive)

  // The application runs only on a stream that was validated whole: any single valid declared
  // length and all received bytes are within the limit, and it sees exactly those bytes.
  method HandleRequest(parsed: seq<Option<int>>, incoming: seq<Message>, limit: nat) returns (r: Decision)
    ensures r.Reject? <==>
      || (|parsed| == 1 && parsed[0].Some? && parsed[0].value > limit)
      || |BytesOf(Relevant(incoming))| > limit
    ensures r.AwaitMore? ==> EndOf(incoming) == |incoming|
    ensures r.RunApp? ==>
      && fresh(r.replay) && r.replay.Valid()
      && EndOf(incoming) < |incoming|
      && |BytesOf(incoming[..EndOf(incoming) + 1])| <= limit
      && r.replay.Pending() == Replayed(BytesOf(incoming[..EndOf(incoming) + 1]), incoming[EndOf(incoming)].Request?)
      && r.replay.incoming == incoming[EndOf(incoming) + 1..]
      && r.replay.complete == incoming[EndOf(incoming)].Request?
  {
    var declared := DeclaredLength(parsed);
    if declared.Some? && declared.value > limit {
      return Reject;
    }
    var intake := BufferBody(incoming, limit);
    match intake {
      case TooLarge => r := Reject;
      case Waiting => r := AwaitMore;
      case Buffered(body, complete, consumed) =>
        var replay := new ReplayReceive(body, complete, incoming[consumed..]);
        r := RunApp(replay);
    }
  }

  // ---------------------------------------------------------------------------
  // What the application sees
  // ---------------------------------------------------------------------------

  // The answer to the application's i-th receive call, counted from 0: the replay, then for a
  // broken-off request disconnects, and for a whole one what the server sends later.
  ghost function Answer(incoming: seq<Message>, i: nat): Option<Message>
    requires EndOf(incoming) < |incoming|
  {
    var complete := incoming[EndOf(incoming)].Request?;
    Upcoming(Replayed(BytesOf(Relevant(incoming)), complete), complete, incoming[EndOf(incoming) + 1..], i)
  }

  ghost function Upcoming(replay: seq<Message>, complete: bool, later: seq<Message>, i: nat): Option<Message> {
    if i < |replay| then Some(replay[i])
    else if !complete then Some(Disconnect)
    else if i - |replay| < |later| then Some(later[i - |replay|])
    else None
  }

  ghost function FirstOf(replay: seq<Message>, complete: bool, later: seq<Message>, n: nat): (messages: seq<Option<Message>>)
    ensures |messages| == n && forall i | 0 <= i < n :: messages[i] == Upcoming(replay, complete, later, i)
  {
    if n == 0 then [] else FirstOf(replay, complete, later, n - 1) + [Upcoming(replay, complete, later, n - 1)]
  }

  // What is left of the replay and of the later messages after k calls.
  ghost predicate IsAfter(replay: seq<Message>, complete: bool, later: seq<Message>, k: nat, pending: seq<Message>,
          incoming: seq<Message>) {
    && pending == (if k < |replay| then replay[k..] else [])
    && incoming == if k <= |replay| || !complete then later else if k - |replay| < |later| then later[k - |replay|..] else []
  }

  lemma ReceivedNext(replay: seq<Message>, complete: bool, later: seq<Message>, k: nat, pending: seq<Message>, incoming: seq<Message>)
    requires IsAfter(replay, complete, later, k, pending, incoming)
    ensures if pending != [] then
              Upcoming(replay, complete, later, k) == Some(pending[0]) && IsAfter(replay, complete, later, k + 1, pending[1..], incoming)
            else if !complete then
              Upcoming(replay, complete, later, k) == Some(Disconnect) && IsAfter(replay, complete, later, k + 1, [], incoming)
            else if incoming == [] then
              Upcoming(replay, complete, later, k) == None && IsAfter(replay, complete, later, k + 1, [], [])
            else
              Upcoming(replay, complete, later, k) == Some(incoming[0]) && IsAfter(replay, complete, later, k + 1, [], incoming[1..])
  {
  }

  datatype Outcome = Rejected | NotYet | Seen(messages: seq<Option<Message>>)

  // The k-th call of receive.
  method ReceiveNext(replay: ReplayReceive, ghost whole: seq<Message>, ghost later: seq<Message>, ghost k: nat)
    returns (m: Option<Message>)
    requires replay.Valid() && IsAfter(whole, replay.complete, later, k, replay.Pending(), replay.incoming)
    modifies replay
    ensures replay.Valid() && IsAfter(whole, replay.complete, later, k + 1, replay.Pending(), replay.incoming)
    ensures m == Upcoming(whole, replay.complete, later, k)
  {
    ReceivedNext(whole, replay.complete, later, k, replay.Pending(), replay.incoming);
    m := replay.Receive();
  }

  // What `calls` calls of receive yield.
  method ReceiveAll(replay: ReplayReceive, calls: nat) returns (messages: seq<Option<Message>>)
    requires replay.Valid()
    modifies replay
    ensures messages == FirstOf(old(replay.Pending()), replay.complete, old(replay.incoming), calls)
  {
    messages := [];
    ghost var whole, later := replay.Pending(), replay.incoming;
    for k := 0 to calls
      invariant replay.Valid() && IsAfter(whole, replay.complete, later, k, replay.Pending(), replay.incoming)
      invariant messages == FirstOf(whole, replay.complete, later, k)
    {
      var m := ReceiveNext(replay, whole, later, k);
      messages := messages + [m];
    }
  }

  // Runs an application that calls receive `calls` times.
  method Serve(parsed: seq<Option<int>>, incoming: seq<Message>, limit: nat, calls: nat) returns (outcome: Outcome)
    ensures outcome.Rejected? <==>
      || (|parsed| == 1 && parsed[0].Some? && parsed[0].value > limit)
      || |BytesOf(Relevant(incoming))| > limit
    ensures outcome.NotYet? ==> EndOf(incoming) == |incoming|
    ensures outcome.Seen? ==> EndOf(incoming) < |incoming| && |outcome.messages| == calls
    ensures outcome.Seen? ==> forall i | 0 <= i < calls :: outcome.messages[i] == Answer(incoming, i)
  {
    var decision := HandleRequest(parsed, incoming, limit);
    match decision {
      case Reject => return Rejected;
      case AwaitMore => return NotYet;
      case RunApp(replay) =>
        var messages := ReceiveAll(replay, calls);
        outcome := Seen(messages);
    }
  }

  // How the client cut a body into messages makes no difference: two requests with the same
  // bytes, both whole, are rejected alike or give the application the very same messages, the
  // first of which carry those bytes in the form of ReplayFaithful.
  method CompareChunkings(parsed: seq<Option<int>>, a: seq<Message>, b: seq<Message>, limit: nat, calls: nat)
    returns (x: Outcome, y: Outcome)
    requires EndOf(a) < |a| && EndOf(b) < |b| && a[EndOf(a)].Request? && b[EndOf(b)].Request?
    requires BytesOf(Relevant(a)) == BytesOf(Relevant(b)) && a[EndOf(a) + 1..] == b[EndOf(b) + 1..]
    ensures x == y
    ensures x.Seen? ==> |x.messages| == calls && forall i | 0 <= i < calls && i < |Replayed(BytesOf(Relevant(a)), true)| ::
              x.messages[i] == Some(Replayed(BytesOf(Relevant(a)), true)[i])
  {
    x := Serve(parsed, a, limit, calls);
    y := Serve(parsed, b, limit, calls);
    assert forall i: nat :: Answer(a, i) == Answer(b, i);
  }
}
