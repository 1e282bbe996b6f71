/**
 One end of a connection of the message framework, handler by handler, and two ends joined by a pair of byte streams.

 Asio's composed operations move any number of bytes at a time (`Emit`, `Receive`); their handler runs once, with
 success only after all bytes have moved (`WriteDone`, `ReadDone`), or with an error at any moment (`WriteFail`,
 `ReadFail`).
 */
module ConnectionModel {
  import opened Base
  import opened Framing

  datatype Part = Header | Body

  /** An async_write under way: which part of the front message it sends, and the bytes still to be moved. */
  datatype WriteOp = WriteOp(part: Part, left: seq<Byte>)

  /** An async_read under way: which part of a message it fills, how many bytes it wants, and those it has. */
  datatype ReadOp = ReadOp(part: Part, want: nat, got: seq<Byte>)

  /** The sending half. `accepted`, `flushed` and `emitted` are history: the messages whose posted Send has run, those
      popped after being written, and the bytes handed to the stream. */
  datatype Writer = Writer(
    outgoing: seq<Message>,
    op: Option<WriteOp>,
    failed: bool,
    accepted: seq<Message>,
    flushed: seq<Message>,
    emitted: seq<Byte>)

  /** The receiving half. `delivered` is what went to the incoming queue; `frames` and `consumed` are history: the
      frames as they came over the wire, and the bytes taken from the stream. */
  datatype Reader = Reader(
    started: bool,
    temp: Message,
    op: Option<ReadOp>,
    delivered: seq<Message>,
    frames: seq<Message>,
    consumed: seq<Byte>)

  /** `posted` holds the messages of the handlers that Send has posted and that have not run; `sent` is history: every
      message passed to Send. */
  datatype Endpoint = Endpoint(
    id: Word,
    open: bool,
    posted: seq<Message>,
    sent: seq<Message>,
    writer: Writer,
    reader: Reader)

  const EMPTY_MESSAGE := Message(0, 0, [])

  const NEW_ENDPOINT :=
    Endpoint(0, true, [], [], Writer([], None, false, [], [], []), Reader(false, EMPTY_MESSAGE, None, [], [], []))

  // ----- The sending half

  /** Issues the write of the front message's header. */
  function WriteHeader(w: Writer): Writer
    requires w.outgoing != []
  {
    w.(op := Some(WriteOp(Header, HeaderBytes(w.outgoing[0]))))
  }

  /** The handler that Send posts. */
  function Post(w: Writer, m: Message): Writer {
    var w' := w.(outgoing := w.outgoing + [m], accepted := w.accepted + [m]);
    if w.outgoing == [] then WriteHeader(w') else w'
  }

  /** The front message is out: pop it, and go on with the next one if there is one. */
  function PopFront(w: Writer): Writer
    requires w.outgoing != []
  {
    var w' := w.(outgoing := w.outgoing[1..], flushed := w.flushed + [w.outgoing[0]], op := None);
    if w'.outgoing == [] then w' else WriteHeader(w')
  }

  /** The success branches of the handlers of WriteHeader and WriteBody. */
  function WriteDone(w: Writer): Writer
    requires w.op.Some? && w.outgoing != []
  {
    if w.op.value.part.Header? && |w.outgoing[0].body| > 0 then w.(op := Some(WriteOp(Body, w.outgoing[0].body)))
    else PopFront(w)
  }

  // ----- The receiving half

  function ReadHeader(r: Reader): Reader { r.(op := Some(ReadOp(Header, HEADER_SIZE, []))) }

  /** vector::resize */
  function Resize(b: seq<Byte>, n: nat): (r: seq<Byte>)
    ensures |r| == n
  {
    if n <= |b| then b[..n] else b + seq(n - |b|, i => 0 as Byte)
  }

  /** Adds the assembled message to the incoming queue and waits for the next header. The body that is delivered is
      whatever `temp` holds. */
  function Deliver(r: Reader, frame: Message): Reader {
    ReadHeader(r.(delivered := r.delivered + [r.temp], frames := r.frames + [frame]))
  }

  /** The success branches of the handlers of ReadHeader and ReadBody. */
  function ReadDone(r: Reader): Reader
    requires r.op.Some? && |r.op.value.got| == r.op.value.want
    requires r.op.value.part.Header? ==> r.op.value.want == HEADER_SIZE
  {
    var op := r.op.value;
    match op.part
    case Header =>
      var id, size := WordOf(op.got[..4]), WordOf(op.got[4..]);
      if size > 0 then
        r.(temp := Message(id, size, Resize(r.temp.body, size)), op := Some(ReadOp(Body, size, [])))
      else
        var temp := r.temp.(id := id, size := size);
        Deliver(r.(temp := temp), Message(id, size, []))
    case Body =>
      var temp := r.temp.(body := op.got);
      Deliver(r.(temp := temp), temp)
  }

  // ----- Two ends and the streams between them

  datatype Side = Left | Right

  datatype Move =
    | Send(m: Message)
    | Accept(k: nat)        // the handler of a posted Send runs
    | Emit(n: nat)          // n bytes of the pending write reach the stream
    | FinishWrite
    | FailWrite
    | ConnectToClient(uid: Word)
    | Connected             // ConnectToServer's handler, on success
    | Receive(n: nat)       // n bytes of the stream reach the pending read
    | FinishRead
    | FailRead
    | Close                 // a posted Disconnect runs

  /** The move can happen at this end, whose peer has emitted the given bytes. */
  predicate CanMove(e: Endpoint, stream: seq<Byte>, move: Move) {
    match move
    case Send(_) => true
    case Accept(k) => k < |e.posted|
    case Emit(n) => e.open && e.writer.op.Some? && 1 <= n <= |e.writer.op.value.left|
    case FinishWrite => e.writer.op.Some? && e.writer.op.value.left == [] && e.writer.outgoing != []
    case FailWrite => e.writer.op.Some?
    case ConnectToClient(_) => !e.reader.started
    case Connected => !e.reader.started
    case Receive(n) =>
      && e.open && e.reader.op.Some?
      && 1 <= n <= |stream| - |e.reader.consumed|
      && |e.reader.op.value.got| + n <= e.reader.op.value.want
    case FinishRead =>
      && e.reader.op.Some? && |e.reader.op.value.got| == e.reader.op.value.want
      && (e.reader.op.value.part.Header? ==> e.reader.op.value.want == HEADER_SIZE)
    case FailRead => e.reader.op.Some?
    case Close => true
  }

  function EmitBytes(w: Writer, n: nat): Writer
    requires w.op.Some? && n <= |w.op.value.left|
  {
    var op := w.op.value;
    w.(op := Some(op.(left := op.left[n..])), emitted := w.emitted + op.left[..n])
  }

  function ReceiveBytes(r: Reader, bytes: seq<Byte>): Reader
    requires r.op.Some?
  {
    r.(op := Some(r.op.value.(got := r.op.value.got + bytes)), consumed := r.consumed + bytes)
  }

  /** Send: posts a handler, which will put the message into the outgoing queue. */
  function Sending(e: Endpoint, m: Message): Endpoint { e.(posted := e.posted + [m], sent := e.sent + [m]) }

  function StartReading(e: Endpoint): Endpoint { e.(reader := ReadHeader(e.reader).(started := true)) }

  function Moved(e: Endpoint, stream: seq<Byte>, move: Move): Endpoint
    requires CanMove(e, stream, move)
  {
    match move
    case Send(m) => Sending(e, m)
    case Accept(k) => e.(posted := e.posted[..k] + e.posted[k + 1..], writer := Post(e.writer, e.posted[k]))
    case Emit(n) => e.(writer := EmitBytes(e.writer, n))
    case FinishWrite => e.(writer := WriteDone(e.writer))
    case FailWrite => e.(writer := e.writer.(op := None, failed := true), open := false)
    case ConnectToClient(uid) => if e.open then StartReading(e.(id := uid)) else e
    case Connected => StartReading(e)
    case Receive(n) =>
      e.(reader := ReceiveBytes(e.reader, stream[|e.reader.consumed|..|e.reader.consumed| + n]))
    case FinishRead => e.(reader := ReadDone(e.reader))
    case FailRead => e.(reader := e.reader.(op := None), open := false)
    case Close => e.(open := false)
  }

  datatype Link = Link(left: Endpoint, right: Endpoint) {
    function At(side: Side): Endpoint { if side.Left? then left else right }

    function Peer(side: Side): Endpoint { if side.Left? then right else left }

    function With(side: Side, e: Endpoint): Link { if side.Left? then this.(left := e) else this.(right := e) }
  }

  const NEW_LINK := Link(NEW_ENDPOINT, NEW_ENDPOINT)

  datatype Event = Event(side: Side, move: Move)

  predicate Enabled(l: Link, e: Event) { CanMove(l.At(e.side), l.Peer(e.side).writer.emitted, e.move) }

  function Apply(l: Link, e: Event): Link
    requires Enabled(l, e)
  {
    l.With(e.side, Moved(l.At(e.side), l.Peer(e.side).writer.emitted, e.move))
  }

  /** The link after a run, or nothing if some event of the run could not happen. */
  function Exec(l: Link, es: seq<Event>): Option<Link> {
    if es == [] then Some(l)
    else
      match Exec(l, es[..|es| - 1])
      case None => None
      case Some(m) => if Enabled(m, es[|es| - 1]) then Some(Apply(m, es[|es| - 1])) else None
  }
}
