/** Which frames one `push` returns, and what it leaves: the decoder works until nothing more is
    forced or a checksum fails, whichever comes first (crates/protocol/src/mcu.rs:152-188). */
module Calls {
  import opened Base
  import opened Mcu
  import opened Decoding

  /** A complete frame stands at the head and its checksum is wrong. */
  predicate BadChecksum(b: seq<Byte>) {
    AtMagic(b) && |b| >= 5 && |b| >= 5 + b[3] as int && b[4 + b[3]] != Checksum(b[2..4 + b[3]])
  }

  /** The buffer as it stood before event `k` of a run that left `r`. */
  function BufferAt(es: seq<Event>, k: nat, r: seq<Byte>): seq<Byte>
    requires k <= |es|
  {
    Bytes(es[k..]) + r
  }

  /** What one call does, said of its whole run: forced moves from `b` to `r`, up to and including
      the byte dropped for the first bad checksum, or else until nothing is forced. */
  predicate OneCall(b: seq<Byte>, es: seq<Event>, r: seq<Byte>) {
    && Moves(b, es, r)
    && (forall k :: 0 <= k < |es| - 1 ==> !BadChecksum(BufferAt(es, k, r)))
    && (Head(r) == Halt || (es != [] && BadChecksum(BufferAt(es, |es| - 1, r))))
  }

  lemma PushedStep(b: seq<Byte>)
    ensures var m := Head(b);
            var q := Pushed(b[Width(m)..]);
            Pushed(b) ==
            if m == Halt then Output([], b)
            else if BadChecksum(b) then Output([], b[1..])
            else Output((if m.Emit? then [m.frame] else []) + q.frames, q.rest)
    ensures BadChecksum(b) <==> Head(b) == Reject
  {}

  lemma BufferUncons(b: seq<Byte>, es: seq<Event>, r: seq<Byte>)
    requires Moves(b, es, r) && es != []
    ensures BufferAt(es, 0, r) == b
    ensures forall k :: 0 <= k < |es| ==> BufferAt(es[1..], k, r) == BufferAt(es, k + 1, r)
  {
    MovesConserve(b, es, r);
    assert es[0..] == es;
    forall k | 0 <= k < |es| ensures es[1..][k..] == es[k + 1..] {}
    hide Moves, Bytes;
  }

  lemma OneCallHead(b: seq<Byte>, es: seq<Event>, r: seq<Byte>)
    requires OneCall(b, es, r)
    ensures Head(b) == Halt <==> es == []
    ensures es == [] ==> b == r
    ensures es != [] ==> Forced(b, es[0]) && Width(Head(b)) <= |b|
    ensures Head(b) == Reject ==> |es| == 1 && r == b[1..]
    ensures Head(b) != Halt && Head(b) != Reject ==> OneCall(b[Width(Head(b))..], es[1..], r)
  {
    PushedStep(b);
    MovesUncons(b, es, r);
    if es != [] {
      BufferUncons(b, es, r);
      assert |es| > 1 ==> 0 <= |es| - 2 < |es| - 1;
    }
    if |es| == 1 {
      MovesUncons(b[Width(Head(b))..], es[1..], r);
    }
    hide Head, Moves, BadChecksum, BufferAt, Pushed, Bytes;
    assert |es| > 1 ==> BufferAt(es[1..], |es| - 2, r) == BufferAt(es, |es| - 1, r);
  }

  lemma OneCallCons(b: seq<Byte>, e: Event, es: seq<Event>, r: seq<Byte>)
    requires Forced(b, e) && Width(Head(b)) <= |b|
    requires Head(b) == Reject ==> es == [] && r == b[1..]
    requires Head(b) != Reject ==> OneCall(b[Width(Head(b))..], es, r)
    ensures OneCall(b, [e] + es, r)
  {
    PushedStep(b);
    if Head(b) == Reject {
      MovesNil(r);
    }
    MovesCons(b, e, es, r);
    BufferUncons(b, [e] + es, r);
    var fs := [e] + es;
    assert fs[1..] == es;
    hide Head, Moves, BadChecksum, BufferAt, Pushed, Bytes;
    forall k | 0 <= k < |fs| - 1 ensures !BadChecksum(BufferAt(fs, k, r)) {
      assert k > 0 ==> BufferAt(es, k - 1, r) == BufferAt(fs, k, r);
    }
    assert es != [] ==> BufferAt(es, |es| - 1, r) == BufferAt(fs, |fs| - 1, r);
  }

  /** Every call does exactly that: the frames it returns and the buffer it leaves are those of such
      a run, and there is only one. */
  lemma {:induction false} PushRuns(b: seq<Byte>) returns (es: seq<Event>)
    ensures OneCall(b, es, Pushed(b).rest) && Frames(es) == Pushed(b).frames
    decreases |b|
  {
    hide *;
    PushedStep(b);
    if Head(b) == Halt {
      es := [];
      Nothing(b);
    } else {
      var e := ForcedEvent(b);
      var fs: seq<Event> := [];
      MovesNil(b);
      if Head(b) != Reject {
        fs := PushRuns(b[Width(Head(b))..]);
      }
      es := [e] + fs;
      OneCallCons(b, e, fs, Pushed(b).rest);
      FramesUncons(es);
      assert es[1..] == fs && es[0] == e;
    }
  }

  lemma Nothing(b: seq<Byte>)
    requires Head(b) == Halt
    ensures OneCall(b, [], b) && Frames([]) == []
  {
    hide Head;
  }

  lemma ForcedEvent(b: seq<Byte>) returns (e: Event)
    requires Head(b) != Halt
    ensures Forced(b, e) && 0 < Width(Head(b)) <= |b|
    ensures Head(b) == Reject ==> Width(Head(b)) == 1
    ensures Frames([e]) == if Head(b).Emit? then [Head(b).frame] else []
  {
    e := if Head(b).Emit? then Got(Head(b).frame) else Dropped(b[0]);
    assert [e][1..] == [];
  }

  lemma {:induction false} RunIsPush(b: seq<Byte>, es: seq<Event>, r: seq<Byte>)
    requires OneCall(b, es, r)
    ensures Pushed(b) == Output(Frames(es), r)
    decreases |es|
  {
    hide *;
    PushedStep(b);
    OneCallHead(b, es, r);
    if es == [] {
      Nothing(b);
    } else {
      FramesUncons(es);
      FrameOf(b, es[0]);
      if Head(b) == Reject {
        assert es[1..] == [];
        MovesNil(b);
      } else {
        RunIsPush(b[Width(Head(b))..], es[1..], r);
      }
    }
  }

  lemma FrameOf(b: seq<Byte>, e: Event)
    requires Forced(b, e)
    ensures Frames([e]) == if Head(b).Emit? then [Head(b).frame] else []
  {
    assert [e][1..] == [];
  }

  /** One call, exactly: it returns these frames and leaves this buffer if and only if forced moves
      lead there, up to and including the first byte dropped for a bad checksum, or else until
      nothing is forced. */
  lemma {:induction false} PushIff(b: seq<Byte>, o: Output)
    ensures Pushed(b) == o <==> exists es :: OneCall(b, es, o.rest) && Frames(es) == o.frames
  {
    hide *;
    var es := PushRuns(b);
    forall fs | OneCall(b, fs, o.rest) && Frames(fs) == o.frames ensures Pushed(b) == o {
      RunIsPush(b, fs, o.rest);
    }
  }

  /// ---- A failing checksum ends the call ----

  lemma {:induction false} NoiseSkipped(noise: seq<Byte>, b: seq<Byte>)
    requires Quiet(noise) && b != [] && b[0] == MAGIC0
    ensures Pushed(noise + b) == Pushed(b)
    decreases |noise|
  {
    if noise == [] {
      assert noise + b == b;
    } else {
      assert (noise + b)[1] == if |noise| > 1 then noise[1] else MAGIC0;
      assert (noise + b)[1..] == noise[1..] + b;
      NoiseSkipped(noise[1..], b);
      PushedStep(noise + b);
    }
  }

  lemma FrameReturned(f: Frame, more: seq<Byte>)
    ensures Pushed(Encode(f) + more) == Output([f] + Pushed(more).frames, Pushed(more).rest)
  {
    var b := Encode(f) + more;
    EmitsIffEncoded(b, f);
    PushedStep(b);
    assert b[|Encode(f)|..] == more;
  }

  /** After any frames sent through quiet noise, a frame with a bad checksum ends the call: the
      frames before it are returned, its first byte is dropped, and everything behind that byte,
      good frames too, waits for the next call. */
  lemma {:induction false} BadChecksumEndsCall(items: seq<Item>, noise: seq<Byte>, bad: seq<Byte>)
    requires Sendable(items) && Quiet(noise) && BadChecksum(bad)
    ensures Pushed(Line(items, noise) + bad) == Output(Sent(items), bad[1..])
    decreases |items|
  {
    hide Pushed, Encode, Quiet, Checksum;
    if items == [] {
      NoiseSkipped(noise, bad);
      PushedStep(bad);
    } else {
      var rest := Line(items[1..], noise) + bad;
      var f := items[0].frame;
      BadChecksumEndsCall(items[1..], noise, bad);
      FrameReturned(f, rest);
      NoiseSkipped(items[0].noise, Encode(f) + rest) by { hide *; EncodedStarts(f, rest); QuietItem(items); }
      assert Line(items, noise) + bad == items[0].noise + (Encode(f) + rest);
    }
  }

  lemma EncodedStarts(f: Frame, rest: seq<Byte>)
    ensures Encode(f) + rest != [] && (Encode(f) + rest)[0] == MAGIC0
  {}

  lemma QuietItem(items: seq<Item>)
    requires Sendable(items) && items != []
    ensures Quiet(items[0].noise)
  {}
}
