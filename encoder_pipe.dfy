/**
 * The encoder double buffer of src/render.rs and src/systems.rs. Two
 * bounded channels of capacity 2 are cross-wired into a ring between the
 * main loop and the render system; two encoders are sent round it, each
 * side receiving one, using it, and sending it on.
 *
 * Channels are FIFO sequences; encoders are opaque ids. A `recv` on an empty
 * channel or a `send` on a full one would block the calling thread; here that
 * is a precondition of receiving, and it is proved that a send never finds its
 * channel full.
 */
module EncoderPipe {
  import opened Wrappers

  /** `sync_channel(2)`. */
  const CAPACITY := 2

  /** The two channels made by `encoder_channel`. */
  datatype ChannelId = First | Second

  /** One end of the ring: where this side sends and where it receives. */
  datatype EncoderChannel = EncoderChannel(tx: ChannelId, rx: ChannelId)

  /**
   * `encoder_channel`: the main side's sender feeds the render side's
   * receiver and the other way round, and each side sends and receives on
   * different channels.
   */
  function NewEncoderChannels(): (sides: (EncoderChannel, EncoderChannel))
    ensures sides.0.tx == sides.1.rx && sides.1.tx == sides.0.rx
    ensures sides.0.tx != sides.0.rx
  {
    (EncoderChannel(First, Second), EncoderChannel(Second, First))
  }

  /** The two parties that hold an end of the ring. */
  datatype Side = MainSide | RenderSide

  type EncoderId = nat

  function AsSeq(h: Option<EncoderId>): seq<EncoderId> {
    if h.Some? then [h.value] else []
  }

  /**
   * The order in which encoders will next reach the render side: the
   * render-bound channel, then what the main side will send into it, then
   * the main-bound channel, then what the render side will send into that.
   */
  function Circulation(first: seq<EncoderId>, mainHeld: Option<EncoderId>,
                       second: seq<EncoderId>, renderHeld: Option<EncoderId>): seq<EncoderId> {
    first + AsSeq(mainHeld) + second + AsSeq(renderHeld)
  }

  /** The two seeds in the order the k-th receive of the render side starts from. */
  function Rotated(a: EncoderId, b: EncoderId, k: nat): seq<EncoderId> {
    if k % 2 == 0 then [a, b] else [b, a]
  }

  /** The render side received `a`, `b`, `a`, `b`, ... */
  predicate Alternates(rendered: seq<EncoderId>, a: EncoderId, b: EncoderId) {
    forall k :: 0 <= k < |rendered| ==> rendered[k] == Rotated(a, b, k)[0]
  }

  /** One more turn swaps the two seeds. */
  lemma RotatedStep(a: EncoderId, b: EncoderId, k: nat)
    ensures Rotated(a, b, k + 1) == [Rotated(a, b, k)[1], Rotated(a, b, k)[0]]
  {
    if k % 2 == 0 {
      assert (k + 1) % 2 == 1;
    } else {
      assert (k + 1) % 2 == 0;
    }
  }

  /** Receiving the encoder due next keeps the alternation. */
  lemma {:induction false} AlternatesExtend(rendered: seq<EncoderId>, x: EncoderId, a: EncoderId, b: EncoderId)
    requires Alternates(rendered, a, b)
    requires x == Rotated(a, b, |rendered|)[0]
    ensures Alternates(rendered + [x], a, b)
  {
    var r := rendered + [x];
    forall k | 0 <= k < |r| ensures r[k] == Rotated(a, b, k)[0] {
      if k < |rendered| {
        assert r[k] == rendered[k];
      }
    }
  }

  /**
   * The render side's receive turns the ring by one: the encoder it takes
   * is the one due next in the alternation, and the rest move up.
   */
  lemma {:induction false} RenderReceiveTurns(
    first: seq<EncoderId>, mainHeld: Option<EncoderId>, second: seq<EncoderId>,
    rendered: seq<EncoderId>, a: EncoderId, b: EncoderId)
    requires first != []
    requires Circulation(first, mainHeld, second, None) == Rotated(a, b, |rendered|)
    requires Alternates(rendered, a, b)
    ensures first[0] == Rotated(a, b, |rendered|)[0]
    ensures Circulation(first[1..], mainHeld, second, Some(first[0])) == Rotated(a, b, |rendered| + 1)
    ensures Alternates(rendered + [first[0]], a, b)
  {
    var n := |rendered|;
    var before := Rotated(a, b, n);
    var rest := first[1..] + AsSeq(mainHeld) + second;
    assert Circulation(first, mainHeld, second, None) == [first[0]] + rest;
    assert |before| == 2;
    assert first[0] == before[0] && rest == [before[1]];
    RotatedStep(a, b, n);
    assert Circulation(first[1..], mainHeld, second, Some(first[0])) == rest + [first[0]];
    AlternatesExtend(rendered, first[0], a, b);
  }

  /** The main side's receive moves an encoder from its channel into its hand: the order is kept. */
  lemma MainReceiveKeeps(first: seq<EncoderId>, second: seq<EncoderId>, renderHeld: Option<EncoderId>)
    requires second != []
    ensures Circulation(first, Some(second[0]), second[1..], renderHeld)
         == Circulation(first, None, second, renderHeld)
  {
    assert second == [second[0]] + second[1..];
  }

  /**
   * In a ring of two encoders, a side that holds one finds room in the
   * channel it sends on, and sending keeps the order.
   */
  lemma {:induction false} SendKeeps(
    first: seq<EncoderId>, mainHeld: Option<EncoderId>, second: seq<EncoderId>,
    renderHeld: Option<EncoderId>)
    requires |Circulation(first, mainHeld, second, renderHeld)| == 2
    ensures mainHeld.Some? ==>
      && |first| < CAPACITY
      && Circulation(first + [mainHeld.value], None, second, renderHeld)
         == Circulation(first, mainHeld, second, renderHeld)
    ensures renderHeld.Some? ==>
      && |second| < CAPACITY
      && Circulation(first, mainHeld, second + [renderHeld.value], None)
         == Circulation(first, mainHeld, second, renderHeld)
  {
    assert |Circulation(first, mainHeld, second, renderHeld)|
        == |first| + |AsSeq(mainHeld)| + |second| + |AsSeq(renderHeld)|;
  }

  class Ring {
    /** Contents of the two channels, oldest first. */
    var first: seq<EncoderId>
    var second: seq<EncoderId>
    /** The encoder each side holds between its `recv` and its `send`. */
    var mainHeld: Option<EncoderId>
    var renderHeld: Option<EncoderId>
    /** The ends of the ring, as `encoder_channel` returned them. */
    const mainSide: EncoderChannel
    const renderSide: EncoderChannel

    /** The two encoders created when the ring was seeded. */
    ghost const seedA: EncoderId
    ghost const seedB: EncoderId
    /** The encoders the render side has received, in order. */
    ghost var rendered: seq<EncoderId>

    function Queue(c: ChannelId): seq<EncoderId>
      reads this
    {
      if c == First then first else second
    }

    function End(side: Side): EncoderChannel
      reads this
    {
      if side == MainSide then mainSide else renderSide
    }

    function HeldBy(side: Side): Option<EncoderId>
      reads this
    {
      if side == MainSide then mainHeld else renderHeld
    }

    /** The circulation order of the encoders in this ring. */
    ghost function Order(): seq<EncoderId>
      reads this
    {
      Circulation(first, mainHeld, second, renderHeld)
    }

    /**
     * Exactly the two distinct seed encoders are in the ring, in an order
     * that has turned once per render-side receive, and the render side has
     * received them alternately.
     */
    ghost predicate Valid()
      reads this
    {
      && mainSide == EncoderChannel(First, Second)
      && renderSide == EncoderChannel(Second, First)
      && seedA != seedB
      && Order() == Rotated(seedA, seedB, |rendered|)
      && Alternates(rendered, seedA, seedB)
    }

    /** Between frames: nobody holds an encoder and both wait for the render side. */
    ghost predicate Idle()
      reads this
    {
      mainHeld == None && renderHeld == None && second == [] && first == Rotated(seedA, seedB, |rendered|)
    }

    /** The ring holds the seed encoders and no other, and no channel is over capacity. */
    lemma Conserved()
      requires Valid()
      ensures multiset(Order()) == multiset{seedA, seedB}
      ensures |first| <= CAPACITY && |second| <= CAPACITY
      ensures mainHeld.Some? && renderHeld.Some? ==> mainHeld != renderHeld
    {
      var c := Order();
      assert |c| == 2 && c[0] != c[1];
      assert multiset(c) == multiset{c[0], c[1]} by {
        assert c == [c[0], c[1]];
      }
    }

    /** `sender.send(e)`, on a channel with room. */
    method Send(c: ChannelId, e: EncoderId)
      requires |Queue(c)| < CAPACITY
      modifies this
      ensures Queue(c) == old(Queue(c)) + [e]
      ensures c == First ==> second == old(second)
      ensures c == Second ==> first == old(first)
      ensures mainHeld == old(mainHeld) && renderHeld == old(renderHeld) && rendered == old(rendered)
    {
      if c == First {
        first := first + [e];
      } else {
        second := second + [e];
      }
    }

    /** `receiver.recv()`, on a channel that is not empty. */
    method Recv(c: ChannelId) returns (e: EncoderId)
      requires Queue(c) != []
      modifies this
      ensures e == old(Queue(c))[0] && Queue(c) == old(Queue(c))[1..]
      ensures c == First ==> second == old(second)
      ensures c == Second ==> first == old(first)
      ensures mainHeld == old(mainHeld) && renderHeld == old(renderHeld) && rendered == old(rendered)
    {
      if c == First {
        e := first[0];
        first := first[1..];
      } else {
        e := second[0];
        second := second[1..];
      }
    }

    /**
     * The main side's setup: `encoder_channel` followed by two sends of
     * freshly created, distinct encoders (the render loop's seed).
     */
    constructor Seeded(a: EncoderId, b: EncoderId)
      requires a != b
      ensures Valid() && Idle() && rendered == []
      ensures first == [a, b]
    {
      var sides := NewEncoderChannels();
      mainSide, renderSide := sides.0, sides.1;
      first, second := [], [];
      mainHeld, renderHeld := None, None;
      seedA, seedB := a, b;
      rendered := [];
      new;
      Send(mainSide.tx, a);
      Send(mainSide.tx, b);
    }

    /**
     * One side's `recv` from its end of the ring; the side must not already
     * hold an encoder. The received encoder is the oldest in that side's
     * channel; what the render side receives alternates between the seeds.
     */
    method Acquire(side: Side) returns (e: EncoderId)
      requires Valid() && HeldBy(side) == None
      requires Queue(End(side).rx) != []
      modifies this
      ensures Valid()
      ensures side == MainSide ==>
        && e == old(second)[0] && second == old(second)[1..] && first == old(first)
        && mainHeld == Some(e) && renderHeld == old(renderHeld) && rendered == old(rendered)
      ensures side == RenderSide ==>
        && e == old(first)[0] && first == old(first)[1..] && second == old(second)
        && renderHeld == Some(e) && mainHeld == old(mainHeld)
        && rendered == old(rendered) + [e] && e == Rotated(seedA, seedB, |old(rendered)|)[0]
    {
      if side == MainSide {
        MainReceiveKeeps(first, second, renderHeld);
        e := Recv(Second);
        mainHeld := Some(e);
      } else {
        RenderReceiveTurns(first, mainHeld, second, rendered, seedA, seedB);
        e := Recv(First);
        renderHeld := Some(e);
        rendered := rendered + [e];
      }
    }

    /**
     * One side's `send` of the encoder it holds into its end of the ring. The
     * channel always has room, so the send never blocks.
     */
    method Release(side: Side) returns (e: EncoderId)
      requires Valid() && HeldBy(side).Some?
      modifies this
      ensures Valid()
      ensures e == old(HeldBy(side)).value
      ensures |old(Queue(End(side).tx))| < CAPACITY
      ensures Queue(End(side).tx) == old(Queue(End(side).tx)) + [e]
      ensures Queue(End(side).rx) == old(Queue(End(side).rx))
      ensures HeldBy(side) == None
      ensures side == MainSide ==> renderHeld == old(renderHeld)
      ensures side == RenderSide ==> mainHeld == old(mainHeld)
      ensures rendered == old(rendered)
    {
      SendKeeps(first, mainHeld, second, renderHeld);
      e := HeldBy(side).value;
      if side == MainSide {
        Send(First, e);
        mainHeld := None;
      } else {
        Send(Second, e);
        renderHeld := None;
      }
    }
  }
}
