/** The connection itself: its fields, and the handlers that change them. */
module Connections {
  import opened Base
  import opened Framing
  import opened ConnectionModel
  import opened ConnectionTheorems

  class Connection {
    var id: Word
    var open: bool                  // m_socket.is_open()
    var posted: seq<Message>        // the messages of posted handlers that have not run
    var outgoing: seq<Message>      // m_qMessagesOut
    var writing: Option<WriteOp>
    var temp: Message               // m_msgTemporaryIn
    var reading: Option<ReadOp>
    var started: bool
    var incoming: seq<Message>      // what this connection has put into m_qMessagesIn
    ghost var sent: seq<Message>
    ghost var failed: bool
    ghost var accepted: seq<Message>
    ghost var flushed: seq<Message>
    ghost var emitted: seq<Byte>
    ghost var frames: seq<Message>
    ghost var consumed: seq<Byte>

    ghost function WriterView(): Writer
      reads this
    {
      Writer(outgoing, writing, failed, accepted, flushed, emitted)
    }

    ghost function ReaderView(): Reader
      reads this
    {
      Reader(started, temp, reading, incoming, frames, consumed)
    }

    ghost function View(): Endpoint
      reads this
    {
      Endpoint(id, open, posted, sent, WriterView(), ReaderView())
    }

    constructor (isOpen: bool)
      ensures View() == NEW_ENDPOINT.(open := isOpen)
    {
      id, open, posted, outgoing, writing, sent := 0, isOpen, [], [], None, [];
      temp, reading, started, incoming := EMPTY_MESSAGE, None, false, [];
      failed, accepted, flushed, emitted, frames, consumed := false, [], [], [], [], [];
    }

    predicate IsConnected()
      reads this
    {
      open
    }

    /** Posts a handler to the io_context. */
    method Send(m: Message)
      modifies this`posted, this`sent
      ensures View() == Sending(old(View()), m)
    {
      posted := posted + [m];
      sent := sent + [m];
    }

    /** A handler that Send has posted. */
    method OnPosted(k: nat)
      requires WriterOk(WriterView()) && k < |posted|
      modifies this
      ensures View() == Moved(old(View()), [], Accept(k)) && WriterOk(WriterView())
    {
      var m := posted[k];
      PostKept(WriterView(), m);
      posted := posted[..k] + posted[k + 1..];
      Queue(m);
    }

    method Queue(m: Message)
      modifies this`outgoing, this`accepted, this`writing
      ensures WriterView() == Post(old(WriterView()), m)
    {
      var bWritingMessage := outgoing != [];
      outgoing := outgoing + [m];
      accepted := accepted + [m];
      if !bWritingMessage {
        StartWriteHeader();
      }
    }

    method StartWriteHeader()
      requires outgoing != []
      modifies this`writing
      ensures WriterView() == WriteHeader(old(WriterView()))
    {
      writing := Some(WriteOp(Header, HeaderBytes(outgoing[0])));
    }

    /** Some bytes of the pending write go out; returns them. */
    method Transmit(n: nat) returns (bytes: seq<Byte>)
      requires CanMove(View(), [], Emit(n)) && WriterOk(WriterView())
      modifies this
      ensures |bytes| == n && emitted == old(emitted) + bytes
      ensures View() == old(View()).(writer := EmitBytes(old(WriterView()), n)) && WriterOk(WriterView())
    {
      EmitKept(WriterView(), n);
      bytes := writing.value.left[..n];
      writing := Some(writing.value.(left := writing.value.left[n..]));
      emitted := emitted + bytes;
    }

    /** The handler of WriteHeader. */
    method OnHeaderWritten(error: bool)
      requires writing.Some? && writing.value.part.Header?
      requires WriterOk(WriterView()) && (!error ==> writing.value.left == [])
      modifies this
      ensures View() == Moved(old(View()), [], if error then FailWrite else FinishWrite)
      ensures WriterOk(WriterView())
    {
      if error {
        WriteFailKept(WriterView());
        writing, failed, open := None, true, false;
      } else {
        WriteDoneKept(WriterView());
        if |outgoing[0].body| > 0 {
          writing := Some(WriteOp(Body, outgoing[0].body));
        } else {
          PopOutgoing();
        }
      }
    }

    /** The handler of WriteBody. */
    method OnBodyWritten(error: bool)
      requires writing.Some? && writing.value.part.Body?
      requires WriterOk(WriterView()) && (!error ==> writing.value.left == [])
      modifies this
      ensures View() == Moved(old(View()), [], if error then FailWrite else FinishWrite)
      ensures WriterOk(WriterView())
    {
      if error {
        WriteFailKept(WriterView());
        writing, failed, open := None, true, false;
      } else {
        WriteDoneKept(WriterView());
        PopOutgoing();
      }
    }

    /** m_qMessagesOut.pop_front(), and the header of the next message if there is one. */
    method PopOutgoing()
      requires outgoing != []
      modifies this
      ensures View() == old(View()).(writer := PopFront(old(WriterView())))
    {
      flushed := flushed + [outgoing[0]];
      outgoing, writing := outgoing[1..], None;
      if outgoing != [] {
        StartWriteHeader();
      }
    }

    method StartReadHeader()
      modifies this`reading
      ensures ReaderView() == ReadHeader(old(ReaderView()))
    {
      reading := Some(ReadOp(Header, HEADER_SIZE, []));
    }

    /** Makes room for the body and starts to read it. */
    method StartReadBody()
      requires temp.size > 0
      modifies this`temp, this`reading
      ensures ReaderView() == old(ReaderView()).(
                temp := old(temp).(body := Resize(old(temp).body, old(temp).size)),
                op := Some(ReadOp(Body, old(temp).size, [])))
    {
      temp := temp.(body := Resize(temp.body, temp.size));
      reading := Some(ReadOp(Body, |temp.body|, []));
    }

    method ConnectToClient(uid: Word)
      requires !started
      modifies this
      ensures View() == Moved(old(View()), [], Move.ConnectToClient(uid))
    {
      if open {
        id := uid;
        started := true;
        StartReadHeader();
      }
    }

    /** The success branch of ConnectToServer's handler */
    method OnConnected()
      requires !started
      modifies this
      ensures View() == Moved(old(View()), [], Connected)
    {
      started := true;
      StartReadHeader();
    }

    /** Some bytes of the stream reach the pending read. */
    method Take(bytes: seq<Byte>)
      requires reading.Some? && |reading.value.got| + |bytes| <= reading.value.want && ReaderOk(ReaderView())
      modifies this
      ensures View() == old(View()).(reader := ReceiveBytes(old(ReaderView()), bytes)) && ReaderOk(ReaderView())
    {
      ReceiveKept(ReaderView(), bytes);
      reading := Some(reading.value.(got := reading.value.got + bytes));
      consumed := consumed + bytes;
    }

    /** The handler of ReadHeader. */
    method OnHeaderRead(error: bool)
      requires reading.Some? && reading.value.part.Header?
      requires ReaderOk(ReaderView()) && (!error ==> |reading.value.got| == reading.value.want)
      modifies this
      ensures View() == Moved(old(View()), [], if error then FailRead else FinishRead)
      ensures ReaderOk(ReaderView())
    {
      if error {
        reading, open := None, false;
      } else {
        ReadDoneKept(ReaderView());
        TakeHeader();
      }
    }

    /** The success branch of the handler of ReadHeader */
    method TakeHeader()
      requires reading.Some? && reading.value.part.Header? && |reading.value.got| == reading.value.want == HEADER_SIZE
      modifies this
      ensures View() == Moved(old(View()), [], FinishRead)
    {
      var got := reading.value.got;
      temp := temp.(id := WordOf(got[..4]), size := WordOf(got[4..]));
      if temp.size > 0 {
        StartReadBody();
      } else {
        AddToIncomingMessageQueue(temp.(body := []));
      }
    }

    /** The handler of ReadBody. */
    method OnBodyRead(error: bool)
      requires reading.Some? && reading.value.part.Body?
      requires ReaderOk(ReaderView()) && (!error ==> |reading.value.got| == reading.value.want)
      modifies this
      ensures View() == Moved(old(View()), [], if error then FailRead else FinishRead)
      ensures ReaderOk(ReaderView())
    {
      if error {
        reading, open := None, false;
      } else {
        ReadDoneKept(ReaderView());
        TakeBody();
      }
    }

    /** The success branch of the handler of ReadBody */
    method TakeBody()
      requires reading.Some? && reading.value.part.Body? && |reading.value.got| == reading.value.want
      modifies this
      ensures View() == Moved(old(View()), [], FinishRead)
    {
      temp := temp.(body := reading.value.got);
      AddToIncomingMessageQueue(temp);
    }

    method AddToIncomingMessageQueue(ghost frame: Message)
      modifies this
      ensures View() == old(View()).(reader := Deliver(old(ReaderView()), frame))
    {
      incoming := incoming + [temp];
      frames := frames + [frame];
      StartReadHeader();
    }

    /** The handler that Disconnect posts. */
    method Close()
      modifies this`open
      ensures View() == Moved(old(View()), [], Move.Close)
    {
      open := false;
    }
  }
}
