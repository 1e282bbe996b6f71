/** What a connection keeps at every step, and what arrives at its other end. */
module ConnectionTheorems {
  import opened Base
  import opened Framing
  import opened ConnectionModel

  // ----- The sending half

  /** Nothing to send and nothing under way. */
  predicate Idle(w: Writer) { w.outgoing == [] && w.op.None? && !w.failed && w.emitted == EncodeAll(w.flushed) }

  /** Messages wait, and exactly one write is under way, on the front one. */
  ghost predicate Busy(w: Writer) {
    && w.outgoing != [] && w.op.Some? && !w.failed
    && var m := w.outgoing[0];
       if w.op.value.part.Header? then
         w.emitted + w.op.value.left == EncodeAll(w.flushed) + HeaderBytes(m) && |w.op.value.left| <= HEADER_SIZE
       else
         && |m.body| > 0 && |w.op.value.left| <= |m.body|
         && w.emitted + w.op.value.left == EncodeAll(w.flushed) + Encode(m)
  }

  /** A write has failed part way through the front message. */
  ghost predicate Dead(w: Writer) {
    && w.outgoing != [] && w.op.None? && w.failed
    && EncodeAll(w.flushed) <= w.emitted <= EncodeAll(w.flushed) + Encode(w.outgoing[0])
  }

  ghost predicate WriterOk(w: Writer) {
    && w.accepted == w.flushed + w.outgoing
    && (Idle(w) || Busy(w) || Dead(w))
  }

  lemma PostKept(w: Writer, m: Message)
    requires WriterOk(w)
    ensures WriterOk(Post(w, m))
  {
    var w' := Post(w, m);
    assert w'.accepted == w'.flushed + w'.outgoing;
    if w.outgoing != [] { assert w'.outgoing[0] == w.outgoing[0]; }
  }

  lemma EmitKept(w: Writer, n: nat)
    requires WriterOk(w) && w.op.Some? && n <= |w.op.value.left|
    ensures WriterOk(EmitBytes(w, n))
  {
    var left := w.op.value.left;
    assert (w.emitted + left[..n]) + left[n..] == w.emitted + left;
  }

  lemma PopKept(w: Writer)
    requires w.outgoing != [] && !w.failed && w.accepted == w.flushed + w.outgoing
    requires w.emitted == EncodeAll(w.flushed) + Encode(w.outgoing[0])
    ensures WriterOk(PopFront(w))
  {
    var m := w.outgoing[0];
    EncodeAllAppend(w.flushed, [m]);
    assert EncodeAll([m]) == Encode(m) by { assert [m][1..] == []; }
    assert w.accepted == (w.flushed + [m]) + w.outgoing[1..];
  }

  lemma WriteDoneKept(w: Writer)
    requires WriterOk(w) && w.op.Some? && w.op.value.left == []
    ensures WriterOk(WriteDone(w))
  {
    var m := w.outgoing[0];
    assert w.emitted + w.op.value.left == w.emitted;
    if w.op.value.part.Header? && |m.body| > 0 {
      assert (EncodeAll(w.flushed) + HeaderBytes(m)) + m.body == EncodeAll(w.flushed) + Encode(m);
    } else {
      if w.op.value.part.Header? { assert Encode(m) == HeaderBytes(m); }
      PopKept(w);
    }
  }

  lemma Between(x: seq<Byte>, y: seq<Byte>, a: seq<Byte>, b: seq<Byte>)
    requires x + y == a + b && |y| <= |b|
    ensures a <= x <= a + b
  {
    assert x == (a + b)[..|x|] && a == (x + y)[..|a|];
  }

  lemma WriteFailKept(w: Writer)
    requires WriterOk(w) && w.op.Some?
    ensures WriterOk(w.(op := None, failed := true))
  {
    var sent, m, left := EncodeAll(w.flushed), w.outgoing[0], w.op.value.left;
    if w.op.value.part.Header? {
      Between(w.emitted, left, sent, HeaderBytes(m));
      assert sent + Encode(m) == (sent + HeaderBytes(m)) + m.body;
    } else {
      Between(w.emitted, left, sent, Encode(m));
    }
  }

  /** Everything emitted is a beginning of the encoding of everything accepted. */
  lemma EmittedIsPrefix(w: Writer)
    requires WriterOk(w)
    ensures w.emitted <= EncodeAll(w.accepted)
  {
    EncodeAllAppend(w.flushed, w.outgoing);
    if w.outgoing != [] {
      var m, others := w.outgoing[0], EncodeAll(w.outgoing[1..]);
      var sent := EncodeAll(w.flushed);
      assert EncodeAll(w.accepted) == (sent + Encode(m)) + others;
      if Busy(w) {
        if w.op.value.part.Header? {
          assert sent + Encode(m) == (sent + HeaderBytes(m)) + m.body;
          Between(w.emitted, w.op.value.left, sent, HeaderBytes(m));
        } else {
          Between(w.emitted, w.op.value.left, sent, Encode(m));
        }
      }
    }
  }

  // ----- The receiving half

  /** The body that the reader's buffer still holds after these frames: that of the last frame that had one. */
  function LastBody(frames: seq<Message>): seq<Byte> {
    if frames == [] then []
    else if |frames[|frames| - 1].body| > 0 then frames[|frames| - 1].body
    else LastBody(frames[..|frames| - 1])
  }

  /** What is delivered for these frames: a frame with a body as it is, one without a body with the stale body of the
      last frame that had one. */
  function Delivery(frames: seq<Message>): (r: seq<Message>)
    ensures |r| == |frames|
  {
    if frames == [] then []
    else
      var init, m := frames[..|frames| - 1], frames[|frames| - 1];
      Delivery(init) + [m.(body := if |m.body| > 0 then m.body else LastBody(init))]
  }

  /** The bytes of the frame under way. */
  function InProgress(r: Reader): seq<Byte>
    requires r.op.Some?
  {
    match r.op.value.part
    case Header => r.op.value.got
    case Body => HeaderBytes(r.temp) + r.op.value.got
  }

  ghost predicate ReaderOk(r: Reader) {
    && (forall i | 0 <= i < |r.frames| :: WellFormed(r.frames[i]))
    && r.delivered == Delivery(r.frames)
    && EncodeAll(r.frames) <= r.consumed
    && (r.op.Some? ==>
          && r.consumed == EncodeAll(r.frames) + InProgress(r)
          && |r.op.value.got| <= r.op.value.want
          && if r.op.value.part.Header? then r.op.value.want == HEADER_SIZE && r.temp.body == LastBody(r.frames)
             else r.op.value.want == r.temp.size == |r.temp.body| > 0)
    && (!r.started ==> r.op.None? && r.frames == [] && r.consumed == [] && r.temp.body == [])
  }

  lemma DeliverKept(r: Reader, frame: Message)
    requires WellFormed(frame) && (forall i | 0 <= i < |r.frames| :: WellFormed(r.frames[i]))
    requires r.started && r.delivered == Delivery(r.frames) && r.consumed == EncodeAll(r.frames) + Encode(frame)
    requires r.temp == frame.(body := if |frame.body| > 0 then frame.body else LastBody(r.frames))
    ensures ReaderOk(Deliver(r, frame))
  {
    EncodeAllAppend(r.frames, [frame]);
    assert EncodeAll([frame]) == Encode(frame) by { assert [frame][1..] == []; }
    assert (r.frames + [frame])[..|r.frames|] == r.frames;
    assert EncodeAll(r.frames + [frame]) + [] == r.consumed;
  }

  lemma ReadDoneKept(r: Reader)
    requires ReaderOk(r) && r.op.Some? && |r.op.value.got| == r.op.value.want
    ensures ReaderOk(ReadDone(r))
  {
    var op := r.op.value;
    match op.part
    case Header =>
      var id, size := WordOf(op.got[..4]), WordOf(op.got[4..]);
      var frame := Message(id, size, []);
      BytesRoundTrip(op.got[..4]);
      BytesRoundTrip(op.got[4..]);
      assert HeaderBytes(frame) == op.got by { assert op.got[..4] + op.got[4..] == op.got; }
      if size > 0 {
        assert HeaderBytes(ReadDone(r).temp) + [] == op.got;
      } else {
        assert Encode(frame) == op.got;
        DeliverKept(r.(temp := r.temp.(id := id, size := size)), frame);
      }
    case Body =>
      var frame := r.temp.(body := op.got);
      assert HeaderBytes(frame) == HeaderBytes(r.temp);
      DeliverKept(r.(temp := frame), frame);
  }

  lemma ReceiveKept(r: Reader, bytes: seq<Byte>)
    requires ReaderOk(r) && r.op.Some? && |r.op.value.got| + |bytes| <= r.op.value.want
    ensures ReaderOk(ReceiveBytes(r, bytes))
  {
    var r' := ReceiveBytes(r, bytes);
    assert InProgress(r') == InProgress(r) + bytes;
    assert r'.consumed == EncodeAll(r.frames) + InProgress(r');
  }

  // ----- Both ends

  ghost predicate EndpointOk(e: Endpoint, stream: seq<Byte>) {
    && WriterOk(e.writer) && ReaderOk(e.reader) && e.reader.consumed <= stream
    && SentOk(e)
  }

  ghost predicate LinkOk(l: Link) {
    EndpointOk(l.left, l.right.writer.emitted) && EndpointOk(l.right, l.left.writer.emitted)
  }

  lemma WriterMoves(e: Endpoint, stream: seq<Byte>, move: Move)
    requires WriterOk(e.writer) && CanMove(e, stream, move)
    ensures WriterOk(Moved(e, stream, move).writer)
    ensures e.writer.emitted <= Moved(e, stream, move).writer.emitted
  {
    match move
    case Accept(k) => PostKept(e.writer, e.posted[k]);
    case Emit(n) => EmitKept(e.writer, n);
    case FinishWrite => WriteDoneKept(e.writer);
    case FailWrite => WriteFailKept(e.writer);
    case _ =>
  }

  lemma ReaderMoves(e: Endpoint, stream: seq<Byte>, move: Move)
    requires ReaderOk(e.reader) && e.reader.consumed <= stream && CanMove(e, stream, move)
    ensures ReaderOk(Moved(e, stream, move).reader) && Moved(e, stream, move).reader.consumed <= stream
  {
    var r, r' := e.reader, Moved(e, stream, move).reader;
    match move
    case Receive(n) => TakesBytes(r, stream, n, r');
    case FinishRead => Finishes(r, r');
    case ConnectToClient(_) => Starts(r, r');
    case Connected => Starts(r, r');
    case FailRead => Breaks(r, r');
    case _ =>
  }

  lemma TakesBytes(r: Reader, stream: seq<Byte>, n: nat, r': Reader)
    requires ReaderOk(r) && r.op.Some? && r.consumed <= stream && |r.consumed| + n <= |stream|
    requires |r.op.value.got| + n <= r.op.value.want
    requires r' == ReceiveBytes(r, stream[|r.consumed|..|r.consumed| + n])
    ensures ReaderOk(r') && r'.consumed <= stream
  {
    ReceiveKept(r, stream[|r.consumed|..|r.consumed| + n]);
  }

  lemma Finishes(r: Reader, r': Reader)
    requires ReaderOk(r) && r.op.Some? && |r.op.value.got| == r.op.value.want && r' == ReadDone(r)
    ensures ReaderOk(r') && r'.consumed == r.consumed
  {
    ReadDoneKept(r);
  }

  lemma Starts(r: Reader, r': Reader)
    requires ReaderOk(r) && !r.started && (r' == r || r' == ReadHeader(r).(started := true))
    ensures ReaderOk(r') && r'.consumed == r.consumed
  {
    assert EncodeAll(r.frames) + [] == [];
  }

  lemma Breaks(r: Reader, r': Reader)
    requires ReaderOk(r) && r' == r.(op := None)
    ensures ReaderOk(r') && r'.consumed == r.consumed
  {
  }

  /** Every message passed to Send has been accepted or is still in a posted handler. */
  predicate SentOk(e: Endpoint) { multiset(e.sent) == multiset(e.writer.accepted) + multiset(e.posted) }

  lemma SendsMove(e: Endpoint, stream: seq<Byte>, move: Move)
    requires SentOk(e) && CanMove(e, stream, move)
    ensures SentOk(Moved(e, stream, move))
  {
    var e' := Moved(e, stream, move);
    if move.Accept? { AcceptSent(e, move.k, e'); } else if move.Send? { SendSent(e, move.m, e'); }
    else { assert e'.sent == e.sent && e'.posted == e.posted && e'.writer.accepted == e.writer.accepted; }
  }

  lemma AcceptSent(e: Endpoint, k: nat, e': Endpoint)
    requires SentOk(e) && k < |e.posted| && e'.sent == e.sent
    requires e'.posted == e.posted[..k] + e.posted[k + 1..] && e'.writer.accepted == e.writer.accepted + [e.posted[k]]
    ensures SentOk(e')
  {
    assert e.posted == e.posted[..k] + [e.posted[k]] + e.posted[k + 1..];
  }

  lemma SendSent(e: Endpoint, m: Message, e': Endpoint)
    requires SentOk(e) && e'.sent == e.sent + [m] && e'.posted == e.posted + [m] && e'.writer == e.writer
    ensures SentOk(e')
  {
  }

  lemma MoveKept(e: Endpoint, stream: seq<Byte>, move: Move)
    requires EndpointOk(e, stream) && CanMove(e, stream, move)
    ensures EndpointOk(Moved(e, stream, move), stream)
    ensures e.writer.emitted <= Moved(e, stream, move).writer.emitted
  {
    WriterMoves(e, stream, move);
    ReaderMoves(e, stream, move);
    SendsMove(e, stream, move);
  }

  lemma EventKept(l: Link, e: Event)
    requires LinkOk(l) && Enabled(l, e)
    ensures LinkOk(Apply(l, e))
  {
    MoveKept(l.At(e.side), l.Peer(e.side).writer.emitted, e.move);
  }

  lemma {:induction false} RunKept(l: Link, es: seq<Event>)
    requires LinkOk(l) && Exec(l, es).Some?
    ensures LinkOk(Exec(l, es).value)
  {
    if es != [] {
      RunKept(l, es[..|es| - 1]);
      EventKept(Exec(l, es[..|es| - 1]).value, es[|es| - 1]);
    }
  }

  lemma NewLinkOk()
    ensures LinkOk(NEW_LINK)
  {
  }

  // ----- The writer over a run

  /** Trichotomy: at every moment between handlers exactly one of these holds: nothing to send and no write under way;
      messages waiting and one write under way on the front one; or a write has failed. */
  lemma WriterTrichotomy(es: seq<Event>, l: Link, side: Side)
    requires Exec(NEW_LINK, es) == Some(l)
    ensures var w := l.At(side).writer;
            && (Idle(w) || Busy(w) || Dead(w))
            && !(Idle(w) && Busy(w)) && !(Busy(w) && Dead(w)) && !(Idle(w) && Dead(w))
            && w.accepted == w.flushed + w.outgoing
            && w.emitted <= EncodeAll(w.accepted)
  {
    NewLinkOk();
    RunKept(NEW_LINK, es);
    EmittedIsPrefix(l.At(side).writer);
  }

  /** After a failed write no write is started, nothing is emitted, and the queue only grows. */
  lemma {:induction false} DeadForGood(l: Link, es: seq<Event>, side: Side)
    requires LinkOk(l) && Dead(l.At(side).writer) && Exec(l, es).Some?
    ensures var w, w' := l.At(side).writer, Exec(l, es).value.At(side).writer;
            Dead(w') && w.outgoing <= w'.outgoing && w'.emitted == w.emitted
  {
    if es != [] {
      var init, e := es[..|es| - 1], es[|es| - 1];
      DeadForGood(l, init, side);
      RunKept(l, init);
      DeadMoves(Exec(l, init).value, e, side);
    }
  }

  lemma DeadMoves(l: Link, e: Event, side: Side)
    requires Dead(l.At(side).writer) && Enabled(l, e)
    ensures var w, w' := l.At(side).writer, Apply(l, e).At(side).writer;
            Dead(w') && w.outgoing <= w'.outgoing && w'.emitted == w.emitted
  {
  }

  /** While a write is under way its message stays at the front. */
  lemma FrontStays(l: Link, e: Event, side: Side)
    requires Enabled(l, e) && Busy(l.At(side).writer)
    requires e.side == side ==> !e.move.FinishWrite? && !e.move.FailWrite?
    ensures var w, w' := l.At(side).writer, Apply(l, e).At(side).writer;
            Busy(w') && w'.outgoing[0] == w.outgoing[0] && w'.flushed == w.flushed
  {
    if e.side == side && e.move.Emit? { EmitFront(l.At(side).writer, e.move.n); }
  }

  lemma EmitFront(w: Writer, n: nat)
    requires Busy(w) && n <= |w.op.value.left|
    ensures Busy(EmitBytes(w, n))
  {
    var left := w.op.value.left;
    assert (w.emitted + left[..n]) + left[n..] == w.emitted + left;
  }

  // ----- Failures close the socket

  /** An end whose socket is open has had no failed write, and waits for input once it has begun to read. */
  predicate Healthy(e: Endpoint) { e.open ==> !e.writer.failed && (e.reader.started ==> e.reader.op.Some?) }

  lemma MoveHealthy(e: Endpoint, stream: seq<Byte>, move: Move)
    requires Healthy(e) && CanMove(e, stream, move)
    ensures Healthy(Moved(e, stream, move))
  {
  }

  /** Over every run, each end is healthy; so a failed read or write has closed the socket of its end. */
  lemma {:induction false} FailureCloses(es: seq<Event>, l: Link, side: Side)
    requires Exec(NEW_LINK, es) == Some(l)
    ensures Healthy(l.At(side))
  {
    if es != [] {
      var m, e := Exec(NEW_LINK, es[..|es| - 1]).value, es[|es| - 1];
      FailureCloses(es[..|es| - 1], m, side);
      if e.side == side { MoveHealthy(m.At(side), m.Peer(side).writer.emitted, e.move); }
    }
  }

  /** A posted Disconnect, a failed read and a failed write end the traffic at their end for good: whatever comes after,
      its socket stays closed, and no byte leaves or enters through it. */
  lemma {:induction false} ClosesForGood(l: Link, e: Event, es: seq<Event>, l': Link)
    requires Enabled(l, e) && (e.move.Close? || e.move.FailRead? || e.move.FailWrite?)
    requires Exec(Apply(l, e), es) == Some(l')
    ensures var x, y := l.At(e.side), l'.At(e.side);
            !y.open && y.writer.emitted == x.writer.emitted && y.reader.consumed == x.reader.consumed
  {
    if es != [] {
      var m, f := Exec(Apply(l, e), es[..|es| - 1]).value, es[|es| - 1];
      ClosesForGood(l, e, es[..|es| - 1], m);
      StaysClosed(m, f, e.side);
    }
  }

  lemma StaysClosed(l: Link, e: Event, side: Side)
    requires Enabled(l, e) && !l.At(side).open
    ensures var x, y := l.At(side), Apply(l, e).At(side);
            !y.open && y.writer.emitted == x.writer.emitted && y.reader.consumed == x.reader.consumed
  {
  }

  // ----- End to end

  /** Whatever was sent: the frames a reader has taken are the first frames of the bytes it received, and it has
      delivered them with the bodies that `Delivery` says, however the bytes were cut up. */
  lemma ReaderDecodes(r: Reader)
    requires ReaderOk(r)
    ensures r.frames <= Decode(r.consumed).frames
    ensures r.op.Some? && |r.op.value.got| < r.op.value.want ==> Decode(r.consumed).frames == r.frames
    ensures r.delivered == Delivery(r.frames)
  {
    var more := r.consumed[|EncodeAll(r.frames)|..];
    var Parsed(others, rest) := Decode(more);
    assert r.consumed == EncodeAll(r.frames) + more;
    DecodeTail(r.frames, more, others, rest);
    if r.op.Some? && |r.op.value.got| < r.op.value.want {
      assert more == InProgress(r);
      NotReady(r);
    }
  }

  lemma DecodeTail(frames: seq<Message>, more: seq<Byte>, others: seq<Message>, rest: seq<Byte>)
    requires (forall i | 0 <= i < |frames| :: WellFormed(frames[i])) && Decode(more) == Parsed(others, rest)
    ensures Decode(EncodeAll(frames) + more) == Parsed(frames + others, rest)
  {
    DecodableIffWellFormed(frames);
    assert [] + more == more;
    DecodeAppend(EncodeAll(frames), more, frames, [], others, rest);
  }

  lemma NotReady(r: Reader)
    requires ReaderOk(r) && r.op.Some? && |r.op.value.got| < r.op.value.want
    ensures !Ready(InProgress(r))
  {
    if r.op.value.part.Body? {
      HeaderRoundTrip(r.temp);
      assert InProgress(r)[4..8] == HeaderBytes(r.temp)[4..];
    }
  }

  /** End to end: over every run of sends, completions, failures and closes, and every segmentation of the bytes, what
      has been delivered at one end is the delivery of the first messages accepted at the other, provided these are
      well formed. */
  lemma EndToEnd(es: seq<Event>, l: Link, side: Side)
    requires Exec(NEW_LINK, es) == Some(l)
    requires var sent := l.Peer(side).writer.accepted; forall i | 0 <= i < |sent| :: WellFormed(sent[i])
    ensures var sent, r := l.Peer(side).writer.accepted, l.At(side).reader;
            && |r.delivered| <= |sent| && r.frames == sent[..|r.delivered|]
            && r.delivered == Delivery(sent[..|r.delivered|])
  {
    NewLinkOk();
    RunKept(NEW_LINK, es);
    LinkDelivers(l, side);
  }

  lemma LinkDelivers(l: Link, side: Side)
    requires LinkOk(l)
    requires var sent := l.Peer(side).writer.accepted; forall i | 0 <= i < |sent| :: WellFormed(sent[i])
    ensures l.At(side).reader.frames <= l.Peer(side).writer.accepted
  {
    var w, r := l.Peer(side).writer, l.At(side).reader;
    EmittedIsPrefix(w);
    ReaderDecodes(r);
    PrefixOfPrefix(r.consumed, w.emitted, EncodeAll(w.accepted));
    DecodePrefix(w.accepted, r.consumed);
    PrefixOfPrefix(r.frames, Decode(r.consumed).frames, w.accepted);
  }

  /** Of the messages passed to Send, each arrives at most once, whatever the order in which the posted handlers run. */
  lemma ArrivesOnce(l: Link, side: Side)
    requires LinkOk(l)
    requires var sent := l.Peer(side).sent; forall i | 0 <= i < |sent| :: WellFormed(sent[i])
    ensures multiset(l.At(side).reader.frames) <= multiset(l.Peer(side).sent)
  {
    AcceptedWereSent(l.Peer(side));
    LinkDelivers(l, side);
    PrefixBag(l.At(side).reader.frames, l.Peer(side).writer.accepted);
  }

  lemma AcceptedWereSent(e: Endpoint)
    requires SentOk(e) && forall i | 0 <= i < |e.sent| :: WellFormed(e.sent[i])
    ensures multiset(e.writer.accepted) <= multiset(e.sent)
    ensures forall i | 0 <= i < |e.writer.accepted| :: WellFormed(e.writer.accepted[i])
  {
    forall i | 0 <= i < |e.writer.accepted| ensures WellFormed(e.writer.accepted[i]) {
      assert e.writer.accepted[i] in multiset(e.sent);
    }
  }

  lemma PrefixBag<T>(a: seq<T>, b: seq<T>)
    requires a <= b
    ensures multiset(a) <= multiset(b)
  {
    assert b == a + b[|a|..];
  }

  /** The posted handlers run in the order in which Send posted them. */
  predicate InOrder(es: seq<Event>) { forall i | 0 <= i < |es| && es[i].move.Accept? :: es[i].move.k == 0 }

  /** What has been passed to Send is what was accepted, followed by what is still posted. */
  predicate SentInOrder(e: Endpoint) { e.sent == e.writer.accepted + e.posted }

  lemma MoveInOrder(e: Endpoint, stream: seq<Byte>, move: Move)
    requires SentInOrder(e) && CanMove(e, stream, move) && (move.Accept? ==> move.k == 0)
    ensures SentInOrder(Moved(e, stream, move))
  {
    if move.Accept? { AcceptInOrder(e, Moved(e, stream, move)); }
    else if move.Send? { SendInOrder(e, move.m, Moved(e, stream, move)); }
  }

  lemma AcceptInOrder(e: Endpoint, e': Endpoint)
    requires SentInOrder(e) && e.posted != [] && e'.sent == e.sent
    requires e'.posted == e.posted[..0] + e.posted[1..] && e'.writer.accepted == e.writer.accepted + [e.posted[0]]
    ensures SentInOrder(e')
  {
    assert e.posted == [e.posted[0]] + e'.posted;
  }

  lemma SendInOrder(e: Endpoint, m: Message, e': Endpoint)
    requires SentInOrder(e) && e'.sent == e.sent + [m] && e'.posted == e.posted + [m] && e'.writer == e.writer
    ensures SentInOrder(e')
  {
  }

  lemma {:induction false} RunInOrder(es: seq<Event>, l: Link)
    requires Exec(NEW_LINK, es) == Some(l) && InOrder(es)
    ensures SentInOrder(l.left) && SentInOrder(l.right)
  {
    if es != [] {
      var m, e := Exec(NEW_LINK, es[..|es| - 1]).value, es[|es| - 1];
      RunInOrder(es[..|es| - 1], m);
      MoveInOrder(m.At(e.side), m.Peer(e.side).writer.emitted, e.move);
    }
  }

  /** End to end against the calls of Send: if the posted handlers run in order, what has been delivered at one end is
      the delivery of the first messages passed to Send at the other, provided these are well formed. */
  lemma SentEndToEnd(es: seq<Event>, l: Link, side: Side)
    requires Exec(NEW_LINK, es) == Some(l) && InOrder(es)
    requires var sent := l.Peer(side).sent; forall i | 0 <= i < |sent| :: WellFormed(sent[i])
    ensures var sent, r := l.Peer(side).sent, l.At(side).reader;
            && |r.delivered| <= |sent| && r.frames == sent[..|r.delivered|]
            && r.delivered == Delivery(sent[..|r.delivered|])
  {
    RunInOrder(es, l);
    var e := l.Peer(side);
    forall i | 0 <= i < |e.writer.accepted| ensures WellFormed(e.writer.accepted[i]) {
      assert e.sent[i] == e.writer.accepted[i];
    }
    EndToEnd(es, l, side);
    assert e.sent[..|e.writer.accepted|] == e.writer.accepted;
  }

  lemma PrefixOfPrefix<T>(a: seq<T>, b: seq<T>, c: seq<T>)
    requires a <= b <= c
    ensures a <= c
  {
  }

  /** Nothing is lost: once the writer is idle, the reader has taken every byte and waits for more, everything accepted
      has been delivered. */
  lemma AllArrives(es: seq<Event>, l: Link, side: Side)
    requires Exec(NEW_LINK, es) == Some(l)
    requires var w := l.Peer(side).writer;
             Idle(w) && (forall i | 0 <= i < |w.accepted| :: WellFormed(w.accepted[i]))
    requires var r := l.At(side).reader;
             r.consumed == l.Peer(side).writer.emitted && r.op.Some? && |r.op.value.got| < r.op.value.want
    ensures l.At(side).reader.delivered == Delivery(l.Peer(side).writer.accepted)
  {
    NewLinkOk();
    RunKept(NEW_LINK, es);
    StreamArrives(l.Peer(side).writer, l.At(side).reader);
  }

  lemma StreamArrives(w: Writer, r: Reader)
    requires WriterOk(w) && Idle(w) && ReaderOk(r) && forall i | 0 <= i < |w.accepted| :: WellFormed(w.accepted[i])
    requires r.consumed == w.emitted && r.op.Some? && |r.op.value.got| < r.op.value.want
    ensures r.delivered == Delivery(w.accepted)
  {
    ReaderDecodes(r);
    assert w.accepted == w.flushed;
    DecodableIffWellFormed(w.accepted);
  }

  // ----- What is delivered for a frame

  /** The last body received before frame i, empty if there was none. */
  lemma {:induction false} DeliveryAt(frames: seq<Message>, i: nat)
    requires i < |frames|
    ensures Delivery(frames)[i] ==
            frames[i].(body := if |frames[i].body| > 0 then frames[i].body else LastBody(frames[..i]))
  {
    var init := frames[..|frames| - 1];
    if i < |init| {
      DeliveryAt(init, i);
      assert init[..i] == frames[..i];
    }
  }

  lemma {:induction false} LastBodyIs(frames: seq<Message>)
    ensures if forall i | 0 <= i < |frames| :: frames[i].body == [] then LastBody(frames) == []
            else exists i :: 0 <= i < |frames| && frames[i].body != [] && LastBody(frames) == frames[i].body
                             && forall j | i < j < |frames| :: frames[j].body == []
  {
    if frames != [] && frames[|frames| - 1].body == [] { LastBodyIs(frames[..|frames| - 1]); }
  }

  /** Every delivered message has the header that was sent and begins with the body that was sent. */
  lemma {:induction false} DeliveryKeeps(frames: seq<Message>, i: nat)
    requires i < |frames| && WellFormed(frames[i])
    ensures var d := Delivery(frames)[i];
            d.id == frames[i].id && d.size == frames[i].size && d.size <= |d.body| && d.body[..d.size] == frames[i].body
  {
    DeliveryAt(frames, i);
  }

  /** Messages arrive as they were sent exactly when no message without a body follows one with a body. */
  lemma {:induction false} DeliveryExact(frames: seq<Message>)
    ensures Delivery(frames) == frames <==>
              forall i, j | 0 <= i < j < |frames| && frames[i].body != [] :: frames[j].body != []
  {
    forall i: nat | i < |frames|
      ensures Delivery(frames)[i] == frames[i] <==> frames[i].body != [] || LastBody(frames[..i]) == []
    {
      DeliveryAt(frames, i);
    }
    forall i: nat | i < |frames|
      ensures LastBody(frames[..i]) == [] <==> forall j | 0 <= j < i :: frames[j].body == []
    {
      LastBodyIs(frames[..i]);
      if LastBody(frames[..i]) == [] { assert forall j | 0 <= j < i :: frames[..i][j].body == frames[j].body; }
    }
  }
}
