/**
 Moving a buffer through a socket that takes or gives only some of the bytes at a time: the chain of callbacks of
 async_write_some, the loop over write_some, and the loop over read_some.

 A schedule is what the socket answers, call by call.  A call that can move anything moves at least one byte.
 */
module Transfers {
  import opened Base

  datatype Outcome = Moves(n: nat) | Fails(code: int)

  datatype Status = Pending | Finished | Broken(code: int)

  /** How many bytes have been moved, and how it stands. */
  datatype Progress = Progress(total: nat, status: Status)

  /** The bytes moved by a call with room for so many. */
  function Amount(n: nat, room: nat): (k: nat)
    ensures k <= room && (room > 0 ==> k > 0) && (0 < n <= room ==> k == n)
  {
    if n > room then room else if n == 0 && room > 0 then 1 else n
  }

  function Callback(len: nat, p: Progress, o: Outcome): Progress
    requires p.total <= len
  {
    match o
    case Fails(code) => p.(status := Broken(code))
    case Moves(n) =>
      var total := p.total + Amount(n, len - p.total);
      Progress(total, if total == len then Finished else Pending)
  }

  /** The chain of callbacks for a buffer of the given length, after these outcomes. */
  function Chain(len: nat, os: seq<Outcome>): (p: Progress)
    ensures p.total <= len
  {
    if os == [] then Progress(0, Pending)
    else
      var p := Chain(len, os[..|os| - 1]);
      if p.status.Pending? then Callback(len, p, os[|os| - 1]) else p
  }

  /** The loop when so much has been moved: it looks whether there is anything left before each call of the socket. */
  function LoopFrom(len: nat, total: nat, os: seq<Outcome>): (p: Progress)
    requires total <= len
    ensures p.total <= len && (p.status.Finished? ==> p.total == len)
    decreases |os|
  {
    if total == len then Progress(total, Finished)
    else if os == [] then Progress(total, Pending)
    else
      match os[0]
      case Fails(code) => Progress(total, Broken(code))
      case Moves(n) => LoopFrom(len, total + Amount(n, len - total), os[1..])
  }

  function Loop(len: nat, os: seq<Outcome>): Progress { LoopFrom(len, 0, os) }

  /** One turn of the loop. */
  lemma LoopTurn(len: nat, total: nat, os: seq<Outcome>, i: nat)
    requires total < len && i < |os|
    ensures LoopFrom(len, total, os[i..]) ==
            match os[i]
            case Fails(code) => Progress(total, Broken(code))
            case Moves(n) => LoopFrom(len, total + Amount(n, len - total), os[i + 1..])
  {
    assert os[i..][0] == os[i] && os[i..][1..] == os[i + 1..];
  }

  lemma ChainSnoc(len: nat, os: seq<Outcome>, o: Outcome)
    ensures Chain(len, os + [o]) ==
            if Chain(len, os).status.Pending? then Callback(len, Chain(len, os), o) else Chain(len, os)
  {
    assert (os + [o])[..|os|] == os;
  }

  /** It is finished exactly when everything has been moved, and each call but a failed one moves something. */
  lemma {:induction false} ChainMeasure(len: nat, os: seq<Outcome>)
    requires len > 0
    ensures var p := Chain(len, os);
            && (p.status.Finished? <==> p.total == len)
            && (p.status.Pending? ==> |os| <= p.total)
  {
    if os != [] { ChainMeasure(len, os[..|os| - 1]); }
  }

  /** Over every schedule without a failure that is as long as the buffer, the transfer finishes with the whole buffer
      moved. */
  lemma {:induction false} Finishes(len: nat, os: seq<Outcome>)
    requires 0 < len <= |os| && forall i | 0 <= i < |os| :: os[i].Moves?
    ensures Chain(len, os) == Progress(len, Finished)
  {
    ChainMeasure(len, os);
    NeverBroken(len, os);
  }

  lemma {:induction false} NeverBroken(len: nat, os: seq<Outcome>)
    requires forall i | 0 <= i < |os| :: os[i].Moves?
    ensures !Chain(len, os).status.Broken?
  {
    if os != [] { NeverBroken(len, os[..|os| - 1]); }
  }

  /** Once finished or broken, no further call is made. */
  lemma {:induction false} Settled(len: nat, os: seq<Outcome>, more: seq<Outcome>)
    requires !Chain(len, os).status.Pending?
    ensures Chain(len, os + more) == Chain(len, os)
  {
    if more == [] {
      assert os + more == os;
    } else {
      Settled(len, os, more[..|more| - 1]);
      assert os + more == (os + more[..|more| - 1]) + [more[|more| - 1]];
      ChainSnoc(len, os + more[..|more| - 1], more[|more| - 1]);
    }
  }

  /** A chain that is still under way goes on as the loop does from where it is. */
  lemma {:induction false} ChainGoesOn(len: nat, os: seq<Outcome>, more: seq<Outcome>)
    requires len > 0 && Chain(len, os).status.Pending?
    ensures Chain(len, os + more) == LoopFrom(len, Chain(len, os).total, more)
    decreases |more|
  {
    ChainMeasure(len, os);
    if more == [] {
      assert os + more == os;
    } else {
      var next := os + [more[0]];
      ChainSnoc(len, os, more[0]);
      assert os + more == next + more[1..];
      if Chain(len, next).status.Pending? {
        ChainGoesOn(len, next, more[1..]);
      } else {
        Settled(len, next, more[1..]);
      }
    }
  }

  /** The chain and the loop do the same, except that the chain writes nothing once before it notices that there is
      nothing to write. */
  lemma {:induction false} ChainIsLoop(len: nat, os: seq<Outcome>)
    ensures Chain(len, os) == Loop(len, os) <==> len > 0 || (os != [] && os[0].Moves?)
  {
    if len > 0 {
      ChainGoesOn(len, [], os);
      assert [] + os == os;
    } else if os != [] {
      ChainSnoc(0, [], os[0]);
      Settled(0, [os[0]], os[1..]);
      assert os == [os[0]] + os[1..] && [] + [os[0]] == [os[0]];
    }
  }

  // ----- The writers

  lemma NextBytes(buf: seq<Byte>, from: nat, k: nat)
    requires from + k <= |buf|
    ensures buf[..from] + buf[from..][..k] == buf[..from + k]
  {
  }

  /** Session of the asynchronous writer, with what it has put on the wire. */
  class Session {
    const buf: seq<Byte>
    var total_bytes_written: nat
    var status: Status
    var wire: seq<Byte>

    ghost predicate Valid()
      reads this
    {
      total_bytes_written <= |buf| && wire == buf[..total_bytes_written]
    }

    ghost function View(): Progress
      reads this
    {
      Progress(total_bytes_written, status)
    }

    /** WriteToSocket: starts the first write. */
    constructor (data: seq<Byte>)
      ensures Valid() && buf == data && View() == Chain(|data|, [])
    {
      buf, total_bytes_written, status, wire := data, 0, Pending, [];
    }

    /** The pending write moves some bytes, or fails; Callback runs. */
    method OnWritten(o: Outcome)
      requires Valid() && status.Pending?
      modifies this
      ensures Valid() && View() == Callback(|buf|, old(View()), o)
    {
      match o {
        case Fails(code) => status := Broken(code);
        case Moves(n) =>
          var rest := buf[total_bytes_written..];
          var bytes_transferred := Amount(n, |rest|);
          NextBytes(buf, total_bytes_written, bytes_transferred);
          wire := wire + rest[..bytes_transferred];
          total_bytes_written := total_bytes_written + bytes_transferred;
          if total_bytes_written == |buf| { status := Finished; }
      }
    }
  }

  /** The asynchronous writer under any schedule: what is on the wire is the part of the buffer that has been moved. */
  method WriteAsync(buf: seq<Byte>, os: seq<Outcome>) returns (wire: seq<Byte>, end: Progress)
    ensures end == Chain(|buf|, os) && wire == buf[..end.total]
    ensures end.status.Finished? ==> wire == buf
  {
    var s := new Session(buf);
    for i := 0 to |os|
      invariant s.Valid() && s.buf == buf && s.View() == Chain(|buf|, os[..i])
      invariant s.status.Finished? ==> s.total_bytes_written == |buf|
    {
      assert os[..i + 1] == os[..i] + [os[i]];
      ChainSnoc(|buf|, os[..i], os[i]);
      if s.status.Pending? { s.OnWritten(os[i]); }
    }
    assert os[..|os|] == os;
    wire, end := s.wire, Progress(s.total_bytes_written, s.status);
  }

  /** The synchronous writer under any schedule. */
  method WriteToSocket(buf: seq<Byte>, os: seq<Outcome>) returns (wire: seq<Byte>, end: Progress)
    ensures end == Loop(|buf|, os) && wire == buf[..end.total]
    ensures end.status.Finished? ==> wire == buf
  {
    wire, end := [], Progress(0, if |buf| == 0 then Finished else Pending);
    var i := 0;
    assert os[0..] == os;
    while end.total != |buf| && end.status.Pending? && i < |os|
      invariant i <= |os| && end.total <= |buf| && wire == buf[..end.total]
      invariant end.status.Pending? ==> LoopFrom(|buf|, end.total, os[i..]) == Loop(|buf|, os)
      invariant if end.status.Pending? then end.total < |buf| else end == Loop(|buf|, os)
    {
      LoopTurn(|buf|, end.total, os, i);
      match os[i] {
        case Fails(code) => end := end.(status := Broken(code));
        case Moves(n) =>
          var rest := buf[end.total..];
          var k := Amount(n, |rest|);
          wire := wire + rest[..k];
          NextBytes(buf, end.total, k);
          end := Progress(end.total + k, if end.total + k == |buf| then Finished else Pending);
      }
      i := i + 1;
    }
  }

  // ----- Writer and reader together

  /** One call of the writer or of the reader returns. */
  datatype Turn = Writes(o: Outcome) | Reads(o: Outcome)

  /** A writer of `len` bytes and a reader of `size` bytes at the two ends of a connection. */
  datatype Pair = Pair(writer: Progress, reader: Progress)

  /** A reader's call returns when there is something to read, and then with no more than that. */
  function Read(size: nat, sent: nat, r: Progress, o: Outcome): Progress
    requires r.total <= size && r.total <= sent
  {
    match o
    case Fails(code) => r.(status := Broken(code))
    case Moves(n) =>
      var room := if size < sent then size - r.total else sent - r.total;
      var total := r.total + Amount(n, room);
      Progress(total, if total == size then Finished else Pending)
  }

  /** Both loops, after these turns. A loop whose buffer is full from the start calls nothing. */
  function Exchange(len: nat, size: nat, ts: seq<Turn>): (p: Pair)
    ensures p.writer.total <= len && p.reader.total <= size && p.reader.total <= p.writer.total
  {
    if ts == [] then
      Pair(Progress(0, if len == 0 then Finished else Pending), Progress(0, if size == 0 then Finished else Pending))
    else
      var p, t := Exchange(len, size, ts[..|ts| - 1]), ts[|ts| - 1];
      match t
      case Writes(o) => if p.writer.status.Pending? then p.(writer := Callback(len, p.writer, o)) else p
      case Reads(o) =>
        if p.reader.status.Pending? then p.(reader := Read(size, p.writer.total, p.reader, o)) else p
  }

  /** The reader finishes only with all the bytes it wants; so it never does if the writer has fewer. */
  lemma {:induction false} ReaderNeedsAll(len: nat, size: nat, ts: seq<Turn>)
    ensures var p := Exchange(len, size, ts);
            && (p.reader.status.Finished? <==> p.reader.total == size && !p.reader.status.Broken?)
            && (p.writer.status.Finished? <==> p.writer.total == len && !p.writer.status.Broken?)
            && (p.reader.status.Finished? ==> size <= len)
  {
    if ts != [] { ReaderNeedsAll(len, size, ts[..|ts| - 1]); }
  }

  function ReadTurns(ts: seq<Turn>): nat {
    if ts == [] then 0 else ReadTurns(ts[..|ts| - 1]) + if ts[|ts| - 1].Reads? then 1 else 0
  }

  /** Turn i is a call of the reader, still under way, that fails with this code. */
  predicate ReadFailsAt(len: nat, size: nat, ts: seq<Turn>, i: nat, code: int) {
    i < |ts| && ts[i] == Reads(Fails(code)) && Exchange(len, size, ts[..i]).reader.status.Pending?
  }

  /** The reader is broken exactly by a call that failed while it was still reading, and with the error of that call. */
  lemma {:induction false} ReaderBroken(len: nat, size: nat, ts: seq<Turn>, code: int)
    ensures Exchange(len, size, ts).reader.status == Broken(code) <==>
              exists i: nat :: ReadFailsAt(len, size, ts, i, code)
  {
    if ts != [] {
      var init := ts[..|ts| - 1];
      ReaderBroken(len, size, init, code);
      if i: nat :| ReadFailsAt(len, size, init, i, code) {
        assert init[..i] == ts[..i];
        assert ReadFailsAt(len, size, ts, i, code);
      }
      assert ReadFailsAt(len, size, ts, |init|, code) <==>
             ts[|init|] == Reads(Fails(code)) && Exchange(len, size, init).reader.status.Pending?;
      if i: nat :| ReadFailsAt(len, size, ts, i, code) { BreaksForGood(len, size, ts, i, code); }
    }
  }

  /** ... and then it keeps what it had read. */
  lemma {:induction false} BreaksForGood(len: nat, size: nat, ts: seq<Turn>, i: nat, code: int)
    requires ReadFailsAt(len, size, ts, i, code)
    ensures Exchange(len, size, ts).reader == Exchange(len, size, ts[..i]).reader.(status := Broken(code))
  {
    var init := ts[..|ts| - 1];
    if i < |init| {
      assert init[..i] == ts[..i];
      BreaksForGood(len, size, init, i, code);
    }
  }

  /** After the writer has finished, as many reads as there are bytes wanted finish the reader, if none fails and the
      writer had enough. */
  lemma {:induction false} ReaderFinishes(len: nat, size: nat, ts: seq<Turn>, more: seq<Turn>)
    requires size <= len && Exchange(len, size, ts).writer == Progress(len, Finished)
    requires forall i | 0 <= i < |more| :: more[i].o.Moves?
    requires !Exchange(len, size, ts).reader.status.Broken?
    ensures var p := Exchange(len, size, ts + more);
            && p.writer == Progress(len, Finished) && !p.reader.status.Broken?
            && (p.reader.status.Pending? ==> ReadTurns(more) <= p.reader.total)
            && (ReadTurns(more) >= size ==> p.reader == Progress(size, Finished))
  {
    if more == [] {
      assert ts + more == ts;
    } else {
      var init, last := more[..|more| - 1], more[|more| - 1];
      ReaderFinishes(len, size, ts, init);
      assert (ts + more)[..|ts + more| - 1] == ts + init;
      ReaderNeedsAll(len, size, ts + init);
    }
    ReaderNeedsAll(len, size, ts + more);
  }

  /** The reader's loop, filling its buffer in place from what the writer's loop has put on the wire, in any
      interleaving: what it has is what the writer was given. */
  method RunBoth(buf: seq<Byte>, into: array<Byte>, ts: seq<Turn>) returns (end: Pair)
    modifies into
    ensures end == Exchange(|buf|, into.Length, ts)
    ensures into[..end.reader.total] == buf[..end.reader.total]
    ensures end.reader.status.Finished? ==> into.Length <= |buf| && into[..] == buf[..into.Length]
  {
    var wire: seq<Byte> := [];
    end := Exchange(|buf|, into.Length, []);
    for i := 0 to |ts|
      invariant end == Exchange(|buf|, into.Length, ts[..i])
      invariant wire == buf[..end.writer.total] && into[..end.reader.total] == buf[..end.reader.total]
    {
      assert ts[..i + 1][..i] == ts[..i];
      match ts[i] {
        case Writes(o) =>
          if end.writer.status.Pending? {
            var next := Callback(|buf|, end.writer, o);
            wire := wire + buf[end.writer.total..next.total];
            end := end.(writer := next);
          }
        case Reads(o) =>
          if end.reader.status.Pending? {
            var next := Read(into.Length, end.writer.total, end.reader, o);
            ReadSome(into, wire, end.reader.total, next.total);
            end := end.(reader := next);
          }
      }
    }
    assert ts[..|ts|] == ts;
    ReaderNeedsAll(|buf|, into.Length, ts);
  }

  /** read_some: copies the next bytes of the wire into the buffer. */
  method ReadSome(into: array<Byte>, wire: seq<Byte>, from: nat, to: nat)
    requires from <= to <= into.Length && to <= |wire| && into[..from] == wire[..from]
    modifies into
    ensures into[..to] == wire[..to]
  {
    for i := from to to
      invariant into[..i] == wire[..i]
    {
      into[i] := wire[i];
    }
  }
}
