/** The message as a stack of raw values: `<<` appends the bytes of a value, `>>` takes them off the end. */
module SerialMessages {
  import opened Base
  import opened Framing

  /** `msg << data`: the size in the header is a uint32_t. */
  function Pushed(m: Message, data: seq<Byte>): Message {
    var body := m.body + data;
    m.(body := body, size := |body| % TWO_32)
  }

  /** `msg >> data` for a value of n bytes: the message left and the bytes taken. */
  function Popped(m: Message, n: nat): (r: (Message, seq<Byte>))
    requires n <= |m.body|
  {
    var rest := |m.body| - n;
    (m.(body := m.body[..rest], size := rest % TWO_32), m.body[rest..])
  }

  /** `msg << a << b << ...` */
  function PushAll(m: Message, values: seq<seq<Byte>>): Message {
    if values == [] then m else Pushed(PushAll(m, values[..|values| - 1]), values[|values| - 1])
  }

  /** Pops one value for each size, in the order given. */
  function PopAll(m: Message, sizes: seq<nat>): (r: (Message, seq<seq<Byte>>))
    requires Total(sizes) <= |m.body|
    decreases |sizes|
  {
    if sizes == [] then (m, [])
    else
      var (m1, value) := Popped(m, sizes[0]);
      var (m2, values) := PopAll(m1, sizes[1..]);
      (m2, [value] + values)
  }

  function Total(sizes: seq<nat>): nat { if sizes == [] then 0 else sizes[0] + Total(sizes[1..]) }

  function Reversed<T>(s: seq<T>): seq<T> { seq(|s|, i requires 0 <= i < |s| => s[|s| - 1 - i]) }

  function Sizes(values: seq<seq<Byte>>): seq<nat> { seq(|values|, i requires 0 <= i < |values| => |values[i]|) }

  /** Popping right after pushing gives the value back and undoes the push. */
  lemma PopUndoesPush(m: Message, data: seq<Byte>)
    ensures Popped(Pushed(m, data), |data|) == (m.(size := |m.body| % TWO_32), data)
  {
    assert (m.body + data)[..|m.body|] == m.body && (m.body + data)[|m.body|..] == data;
  }

  /** After a push the header announces the body exactly while the body is shorter than 2^32 bytes. */
  lemma SizeIsExactBelow(m: Message, data: seq<Byte>)
    ensures WellFormed(Pushed(m, data)) <==> |m.body| + |data| < TWO_32
  {
  }

  /** After any pushes the body is the old one with the values behind it, and the size follows it modulo 2^32. */
  lemma {:induction false} PushAllBody(m: Message, values: seq<seq<Byte>>)
    ensures |PushAll(m, values).body| == |m.body| + Total(Reversed(Sizes(values)))
    ensures m.body <= PushAll(m, values).body && PushAll(m, values).id == m.id
    ensures PushAll(m, values).size == if values == [] then m.size else |PushAll(m, values).body| % TWO_32
  {
    if values != [] {
      PushAllBody(m, values[..|values| - 1]);
      SizesReversed(values);
    }
  }

  /** The last value pushed is the first one popped. */
  lemma SizesReversed(values: seq<seq<Byte>>)
    requires values != []
    ensures Reversed(Sizes(values)) == [|values[|values| - 1]|] + Reversed(Sizes(values[..|values| - 1]))
    ensures Reversed(values) == [values[|values| - 1]] + Reversed(values[..|values| - 1])
  {
    assert Sizes(values)[..|values| - 1] == Sizes(values[..|values| - 1]);
  }

  /** Stack round trip: pushing any values and popping their sizes in reverse order returns the values in reverse order
      and restores the body. */
  lemma {:induction false} RoundTrip(m: Message, values: seq<seq<Byte>>)
    ensures |PushAll(m, values).body| == |m.body| + Total(Reversed(Sizes(values)))
    ensures var (left, popped) := PopAll(PushAll(m, values), Reversed(Sizes(values)));
            && popped == Reversed(values)
            && left == if values == [] then m else m.(size := |m.body| % TWO_32)
  {
    PushAllBody(m, values);
    if values != [] {
      var init, last := values[..|values| - 1], values[|values| - 1];
      var before := PushAll(m, init);
      RoundTrip(m, init);
      PopUndoesPush(before, last);
      SizesReversed(values);
      PushAllBody(m, init);
      var sizes := Reversed(Sizes(values));
      assert sizes[0] == |last| && sizes[1..] == Reversed(Sizes(init));
      if init == [] { assert sizes[1..] == []; } else { assert before.(size := |before.body| % TWO_32) == before; }
    }
  }

  class SerialMessage {
    var id: Word
    var size: Word        // header.size
    var body: seq<Byte>

    function View(): Message
      reads this
    {
      Message(id, size, body)
    }

    constructor (id: Word)
      ensures View() == Message(id, 0, [])
    {
      this.id, size, body := id, 0, [];
    }

    /** A copy */
    constructor From(m: Message)
      ensures View() == m
    {
      id, size, body := m.id, m.size, m.body;
    }

    /** operator<< for a value whose bytes are `data` */
    method Push(data: seq<Byte>)
      modifies this
      ensures View() == Pushed(old(View()), data)
    {
      body := body + data;
      size := |body| % TWO_32;
    }

    /** operator>> for a value of n bytes; the code does not check that there are so many. */
    method Pop(n: nat) returns (data: seq<Byte>)
      requires n <= |body|
      modifies this
      ensures (View(), data) == Popped(old(View()), n)
    {
      var i := |body| - n;
      data := body[i..];
      body := body[..i];
      size := |body| % TWO_32;
    }
  }
}
