/** What can still arrive: on an open connection, everything that has been passed to Send. */
module ConnectionProgress {
  import opened Base
  import opened Framing
  import opened ConnectionModel
  import opened ConnectionTheorems

  /** The end after these moves, while the other end does nothing, or nothing if one of them could not happen. */
  function Follow(e: Endpoint, stream: seq<Byte>, moves: seq<Move>): Option<Endpoint>
    decreases |moves|
  {
    if moves == [] then Some(e)
    else if CanMove(e, stream, moves[0]) then Follow(Moved(e, stream, moves[0]), stream, moves[1..])
    else None
  }

  /** The handlers of posted Sends in their order, the movement of bytes, and successful completions. */
  predicate Works(move: Move) {
    move == Accept(0) || move.Emit? || move.FinishWrite? || move.Receive? || move.FinishRead?
  }

  predicate AllWork(moves: seq<Move>) { forall i | 0 <= i < |moves| :: Works(moves[i]) }

  lemma First(e: Endpoint, stream: seq<Byte>, move: Move, more: seq<Move>, e': Endpoint) returns (moves: seq<Move>)
    requires CanMove(e, stream, move) && Works(move) && AllWork(more)
    requires Follow(Moved(e, stream, move), stream, more) == Some(e')
    ensures Follow(e, stream, moves) == Some(e') && AllWork(moves)
  {
    moves := [move] + more;
    assert moves[1..] == more;
  }

  // ----- The writer can finish

  /** e' is e after everything that was posted and queued has gone out. */
  predicate Flushed(e: Endpoint, e': Endpoint) {
    && e'.open && e'.posted == [] && Idle(e'.writer) && e'.writer.accepted == e.writer.accepted + e.posted
    && e'.reader == e.reader && e'.sent == e.sent && e'.id == e.id
  }

  function NextWrite(e: Endpoint): Move
    requires e.posted != [] || e.writer.op.Some?
  {
    if e.posted != [] then Accept(0)
    else if e.writer.op.value.left != [] then Emit(|e.writer.op.value.left|)
    else FinishWrite
  }

  predicate Unsent(e: Endpoint, e': Endpoint) {
    && e'.open == e.open && !e'.writer.failed && e'.reader == e.reader && e'.sent == e.sent && e'.id == e.id
    && e'.writer.accepted + e'.posted == e.writer.accepted + e.posted
  }

  lemma AcceptUnsent(e: Endpoint, stream: seq<Byte>, e': Endpoint)
    requires e.posted != [] && !e.writer.failed && e' == Moved(e, stream, Accept(0))
    ensures Unsent(e, e') && |e'.posted| < |e.posted|
  {
    assert e.writer.accepted + e.posted == (e.writer.accepted + [e.posted[0]]) + (e.posted[..0] + e.posted[1..]);
  }

  lemma WriteUnsent(e: Endpoint, stream: seq<Byte>, move: Move, e': Endpoint)
    requires (move.Emit? || move.FinishWrite?) && CanMove(e, stream, move) && !e.writer.failed
    requires e' == Moved(e, stream, move)
    ensures Unsent(e, e') && e'.posted == e.posted
  {
  }

  lemma NextWriteKeeps(e: Endpoint, stream: seq<Byte>, e': Endpoint)
    requires WriterOk(e.writer) && e.open && !e.writer.failed && (e.posted != [] || e.writer.op.Some?)
    requires CanMove(e, stream, NextWrite(e)) && e' == Moved(e, stream, NextWrite(e))
    ensures WriterOk(e'.writer) && Unsent(e, e')
  {
    WriterMoves(e, stream, NextWrite(e));
    if e.posted != [] { AcceptUnsent(e, stream, e'); } else { WriteUnsent(e, stream, NextWrite(e), e'); }
  }

  lemma {:induction false} WriterCanFinish(e: Endpoint, stream: seq<Byte>) returns (moves: seq<Move>, e': Endpoint)
    requires WriterOk(e.writer) && e.open && !e.writer.failed
    ensures Follow(e, stream, moves) == Some(e') && AllWork(moves) && Flushed(e, e')
    decreases |e.posted|, |e.writer.outgoing|,
              e.writer.op.Some? && e.writer.op.value.part.Header?,
              if e.writer.op.Some? then |e.writer.op.value.left| else 0
  {
    if e.posted == [] && e.writer.op.None? {
      moves, e' := [], e;
      assert e.writer.accepted + [] == e.writer.accepted;
    } else {
      var m := Moved(e, stream, NextWrite(e));
      NextWriteKeeps(e, stream, m);
      var more;
      more, e' := WriterCanFinish(m, stream);
      moves := First(e, stream, NextWrite(e), more, e');
    }
  }

  // ----- The reader can take everything

  /** e' is e after all bytes of the stream have been received, and all complete messages delivered. */
  predicate Drained(e: Endpoint, stream: seq<Byte>, e': Endpoint) {
    && e'.reader.consumed == stream && e'.reader.op.Some? && |e'.reader.op.value.got| < e'.reader.op.value.want
    && e'.writer == e.writer && e'.posted == e.posted && e'.sent == e.sent && e'.id == e.id && e'.open
  }

  predicate Full(r: Reader) { r.op.Some? && |r.op.value.got| == r.op.value.want }

  function NextRead(r: Reader, stream: seq<Byte>): Move
    requires r.op.Some? && |r.consumed| <= |stream| && |r.op.value.got| <= r.op.value.want
  {
    var room, left := r.op.value.want - |r.op.value.got|, |stream| - |r.consumed|;
    if Full(r) then FinishRead else Receive(if room <= left then room else left)
  }

  lemma NextReadKeeps(e: Endpoint, stream: seq<Byte>, e': Endpoint)
    requires ReaderOk(e.reader) && e.open && e.reader.op.Some? && e.reader.consumed <= stream
    requires Full(e.reader) || e.reader.consumed != stream
    requires CanMove(e, stream, NextRead(e.reader, stream)) && e' == Moved(e, stream, NextRead(e.reader, stream))
    ensures ReaderOk(e'.reader) && e'.open && e'.reader.op.Some? && e'.reader.consumed <= stream
    ensures e'.writer == e.writer && e'.posted == e.posted && e'.sent == e.sent && e'.id == e.id
    ensures if Full(e.reader) then e'.reader.consumed == e.reader.consumed && !Full(e'.reader)
            else |e'.reader.consumed| > |e.reader.consumed|
  {
    ReaderMoves(e, stream, NextRead(e.reader, stream));
  }

  lemma {:induction false} ReaderCanDrain(e: Endpoint, stream: seq<Byte>) returns (moves: seq<Move>, e': Endpoint)
    requires ReaderOk(e.reader) && e.open && e.reader.op.Some? && e.reader.consumed <= stream
    ensures Follow(e, stream, moves) == Some(e') && AllWork(moves) && Drained(e, stream, e')
    decreases |stream| - |e.reader.consumed|, Full(e.reader)
  {
    if Full(e.reader) || e.reader.consumed != stream {
      var m := Moved(e, stream, NextRead(e.reader, stream));
      NextReadKeeps(e, stream, m);
      var more;
      more, e' := ReaderCanDrain(m, stream);
      moves := First(e, stream, NextRead(e.reader, stream), more, e');
    } else {
      moves, e' := [], e;
    }
  }

  // ----- Both

  /** What one end does while the other waits is a run of the link. */
  lemma {:induction false} FollowRun(es: seq<Event>, l: Link, side: Side, moves: seq<Move>, e': Endpoint)
    returns (fs: seq<Event>)
    requires Exec(NEW_LINK, es) == Some(l) && AllWork(moves)
    requires Follow(l.At(side), l.Peer(side).writer.emitted, moves) == Some(e')
    ensures es <= fs && Exec(NEW_LINK, fs) == Some(l.With(side, e')) && (InOrder(es) ==> InOrder(fs))
    decreases |moves|
  {
    if moves == [] {
      fs := es;
    } else {
      var e := Event(side, moves[0]);
      assert (es + [e])[..|es|] == es;
      fs := FollowRun(es + [e], Apply(l, e), side, moves[1..], e');
    }
  }

  /** Nothing that has been passed to Send is stuck: after any run that leaves both ends open and the reader waiting,
      some continuation delivers all of it, what was accepted and then what was still posted. */
  lemma EverythingCanArrive(es: seq<Event>, l: Link, side: Side) returns (fs: seq<Event>, l': Link)
    requires Exec(NEW_LINK, es) == Some(l)
    requires l.At(side).open && l.At(side).reader.op.Some? && l.Peer(side).open && !l.Peer(side).writer.failed
    requires var sent := l.Peer(side).sent; forall i | 0 <= i < |sent| :: WellFormed(sent[i])
    ensures es <= fs && Exec(NEW_LINK, fs) == Some(l') && l'.Peer(side).sent == l.Peer(side).sent
    ensures l'.At(side).reader.delivered == Delivery(l.Peer(side).writer.accepted + l.Peer(side).posted)
  {
    var other := if side.Left? then Right else Left;
    NewLinkOk();
    RunKept(NEW_LINK, es);
    var ws, w := WriterCanFinish(l.Peer(side), l.At(side).writer.emitted);
    var gs := FollowRun(es, l, other, ws, w);
    var m := l.With(other, w);
    RunKept(NEW_LINK, gs);
    var rs, r := ReaderCanDrain(m.At(side), w.writer.emitted);
    fs := FollowRun(gs, m, side, rs, r);
    l' := m.With(side, r);
    RunKept(NEW_LINK, fs);
    AcceptedWereSent(w);
    StreamArrives(w.writer, r.reader);
  }
}
