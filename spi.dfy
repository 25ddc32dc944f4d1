/** The serial bus a chip sits on, seen from the driver: an append-only
    timeline of what the driver does to the bus and the chip-select line,
    and a queue standing for the bytes the chip answers with. */
module Spi {

  datatype Option<T> = None | Some(value: T)

  /** One observable step: a chip-select edge, one byte shifted out, or a
      pause of the given number of milliseconds (Go's `time.Sleep`). */
  datatype Event = CsLow | CsHigh | Xfer(out: bv8) | Delay(ms: nat)

  /** Reply `i` of the queue; a queue that has run dry reads 0x00. */
  function Peek(q: seq<bv8>, i: nat): bv8
  {
    if i < |q| then q[i] else 0
  }

  /** The transfer events that shift out `bytes`, in order. */
  function Xfers(bytes: seq<bv8>): seq<Event>
  {
    seq(|bytes|, i requires 0 <= i < |bytes| => Xfer(bytes[i]))
  }

  lemma XfersSnoc(bytes: seq<bv8>, b: bv8)
    ensures Xfers(bytes + [b]) == Xfers(bytes) + [Xfer(b)]
  {
  }

  /** One transaction: chip-select asserted once, the bytes shifted out,
      chip-select released once. */
  function Txn(bytes: seq<bv8>): seq<Event>
  {
    [CsLow] + Xfers(bytes) + [CsHigh]
  }

  /** The length of the run of transfer events that `t` starts with. */
  function LeadingXfers(t: seq<Event>): (n: nat)
    ensures n <= |t|
    ensures forall i :: 0 <= i < n ==> t[i].Xfer?
    ensures n < |t| ==> !t[n].Xfer?
  {
    if t == [] || !t[0].Xfer? then 0 else 1 + LeadingXfers(t[1..])
  }

  /** The bytes shifted out by a run of transfer events. */
  function Outs(t: seq<Event>): (bytes: seq<bv8>)
    requires forall i :: 0 <= i < |t| ==> t[i].Xfer?
    ensures Xfers(bytes) == t
  {
    seq(|t|, i requires 0 <= i < |t| => t[i].out)
  }

  /** Reads a timeline back as the byte strings of its transactions, or
      None when chip-select is not used as one assert / transfers / one
      release per transaction (a transfer outside a transaction, a
      transaction left open). Between transactions, pauses and a release of
      the already released line change nothing and are skipped. */
  function Frames(t: seq<Event>): Option<seq<seq<bv8>>>
    decreases |t|
  {
    if t == [] then Some([])
    else if t[0].Delay? || t[0] == CsHigh then Frames(t[1..])
    else if t[0] != CsLow then None
    else
      var n := LeadingXfers(t[1..]);
      if n + 1 < |t| && t[n + 1] == CsHigh then
        match Frames(t[n + 2..])
        case None => None
        case Some(rest) => Some([Outs(t[1..n + 1])] + rest)
      else None
  }

  /** Prepending a frame to a parse result. */
  function Cons(f: seq<bv8>, r: Option<seq<seq<bv8>>>): Option<seq<seq<bv8>>>
  {
    match r
    case None => None
    case Some(fs) => Some([f] + fs)
  }

  lemma {:induction false} LeadingXfersOf(bytes: seq<bv8>, rest: seq<Event>)
    requires rest != [] && !rest[0].Xfer?
    ensures LeadingXfers(Xfers(bytes) + rest) == |bytes|
    decreases |bytes|
  {
    var t := Xfers(bytes) + rest;
    if bytes != [] {
      assert t[1..] == Xfers(bytes[1..]) + rest;
      LeadingXfersOf(bytes[1..], rest);
    } else {
      assert t == rest;
    }
  }

  /** Where the parts of a transaction sit in a timeline it starts. */
  lemma TxnShape(bytes: seq<bv8>, rest: seq<Event>)
    ensures var t, n := Txn(bytes) + rest, |bytes|;
      && |t| == n + 2 + |rest| && t[0] == CsLow
      && t[1..] == Xfers(bytes) + ([CsHigh] + rest)
      && t[n + 1] == CsHigh && t[n + 2..] == rest && t[1..n + 1] == Xfers(bytes)
  {
    var t, n := Txn(bytes) + rest, |bytes|;
    assert t[1..] == Xfers(bytes) + ([CsHigh] + rest);
    assert t[n + 2..] == rest;
    assert t[1..n + 1] == Xfers(bytes);
  }

  /** The bytes of the transfers shifting out `bytes` are `bytes`. */
  lemma OutsXfers(bytes: seq<bv8>)
    ensures Outs(Xfers(bytes)) == bytes
  {
  }

  /** A transaction at the head of a timeline is read back as its bytes. */
  lemma FramesTxn(bytes: seq<bv8>, rest: seq<Event>)
    ensures Frames(Txn(bytes) + rest) == Cons(bytes, Frames(rest))
  {
    var t := Txn(bytes) + rest;
    TxnShape(bytes, rest);
    LeadingXfersOf(bytes, [CsHigh] + rest);
    OutsXfers(bytes);
  }

  /** Prepending several frames to a parse result. */
  function Prepend(fs: seq<seq<bv8>>, r: Option<seq<seq<bv8>>>): Option<seq<seq<bv8>>>
  {
    match r
    case None => None
    case Some(gs) => Some(fs + gs)
  }

  /** A run of transfers that ends inside `s` is not lengthened by what
      follows `s`. */
  lemma {:induction false} LeadingXfersAppend(s: seq<Event>, b: seq<Event>)
    requires LeadingXfers(s) < |s|
    ensures LeadingXfers(s + b) == LeadingXfers(s)
    decreases |s|
  {
    if s[0].Xfer? {
      assert (s + b)[1..] == s[1..] + b;
      LeadingXfersAppend(s[1..], b);
    }
  }

  /** The parser reads a well-bracketed timeline followed by anything as
      the transactions of the first part, then those of the second. */
  lemma {:induction false} FramesAppend(a: seq<Event>, b: seq<Event>)
    requires Frames(a).Some?
    ensures Frames(a + b) == Prepend(Frames(a).value, Frames(b))
    decreases |a|
  {
    if a == [] {
      assert a + b == b;
      PrependNothing(Frames(b));
    } else if a[0].Delay? || a[0] == CsHigh {
      assert (a + b)[1..] == a[1..] + b;
      FramesAppend(a[1..], b);
    } else {
      var n := LeadingXfers(a[1..]);
      assert a[0] == CsLow && n + 1 < |a| && a[n + 1] == CsHigh;
      var f, rest := Outs(a[1..n + 1]), a[n + 2..];
      assert Frames(rest).Some? && Frames(a).value == [f] + Frames(rest).value;
      assert Frames(a + b) == Cons(f, Frames(rest + b)) by {
        LeadingXfersAppend(a[1..], b);
        AppendShape(a, b, n);
      }
      FramesAppend(rest, b);
      PrependOne(f, Frames(rest).value, Frames(b));
    }
  }

  /** Slices of `a + b` that end inside `a`, or start inside `a`. */
  lemma AppendShape(a: seq<Event>, b: seq<Event>, n: nat)
    requires n + 2 <= |a|
    ensures (a + b)[1..] == a[1..] + b
    ensures (a + b)[n + 1] == a[n + 1]
    ensures (a + b)[n + 2..] == a[n + 2..] + b
    ensures (a + b)[1..n + 1] == a[1..n + 1]
  {
  }

  /** One more transaction at the end of a well-bracketed timeline is read
      back as one more frame. */
  lemma FramesSnocTxn(t: seq<Event>, bytes: seq<bv8>)
    requires Frames(t).Some?
    ensures Frames(t + Txn(bytes)) == Some(Frames(t).value + [bytes])
  {
    FramesAppend(t, Txn(bytes));
    FramesTxn(bytes, []);
    assert Txn(bytes) + [] == Txn(bytes);
    assert [bytes] + [] == [bytes];
    assert Frames(Txn(bytes)) == Some([bytes]);
  }

  /** A pause at the end of a timeline adds no frame. */
  lemma FramesSnocDelay(t: seq<Event>, ms: nat)
    requires Frames(t).Some?
    ensures Frames(t + [Delay(ms)]) == Frames(t)
  {
    FramesAppend(t, [Delay(ms)]);
    assert [Delay(ms)][1..] == [];
    assert Frames([Delay(ms)]) == Frames([]);
    assert Frames(t).value + [] == Frames(t).value;
  }

  lemma PrependNothing(r: Option<seq<seq<bv8>>>)
    ensures Prepend([], r) == r
  {
    if r.Some? {
      assert [] + r.value == r.value;
    }
  }

  lemma PrependOne(f: seq<bv8>, fs: seq<seq<bv8>>, r: Option<seq<seq<bv8>>>)
    ensures Cons(f, Prepend(fs, r)) == Prepend([f] + fs, r)
  {
    if r.Some? {
      assert [f] + (fs + r.value) == [f] + fs + r.value;
    }
  }

  /** The bus and its chip-select line. `trace` only grows. `replies`
      holds the bytes the chip answers, in order, on the transfers whose
      answer the driver keeps; `consumed` counts how many of them have been
      taken. */
  class Bus {
    var trace: seq<Event>
    const replies: seq<bv8>
    var consumed: nat

    constructor (replies: seq<bv8>)
      ensures trace == [] && this.replies == replies && consumed == 0
    {
      trace := [];
      this.replies := replies;
      consumed := 0;
    }

    /** Drive chip-select low (`cs.Low()`). */
    method Select()
      modifies this
      ensures trace == old(trace) + [CsLow] && consumed == old(consumed)
    {
      trace := trace + [CsLow];
    }

    /** Drive chip-select high (`cs.High()`). */
    method Deselect()
      modifies this
      ensures trace == old(trace) + [CsHigh] && consumed == old(consumed)
    {
      trace := trace + [CsHigh];
    }

    /** `bus.Transfer(b)` whose answer the caller throws away. */
    method Write(b: bv8)
      modifies this
      ensures trace == old(trace) + [Xfer(b)] && consumed == old(consumed)
    {
      trace := trace + [Xfer(b)];
    }

    /** `bus.Transfer(b)` whose answer the caller keeps: the next reply. */
    method Transfer(b: bv8) returns (r: bv8)
      modifies this
      ensures trace == old(trace) + [Xfer(b)]
      ensures r == Peek(replies, old(consumed)) && consumed == old(consumed) + 1
    {
      trace := trace + [Xfer(b)];
      r := Peek(replies, consumed);
      consumed := consumed + 1;
    }

    /** `time.Sleep`: only its place in the timeline is kept. */
    method Pause(ms: nat)
      modifies this
      ensures trace == old(trace) + [Delay(ms)] && consumed == old(consumed)
    {
      trace := trace + [Delay(ms)];
    }
  }
}
