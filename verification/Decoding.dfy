/** What the streaming decoder promises over whole byte streams: every byte is accounted
    for, the way a stream is cut into calls does not matter, and encoded frames survive
    noise between them. */
module Decoding {
  import opened Base
  import opened Mcu

  /// ---- Moves: the decoder as a rewriting system on its buffer ----

  datatype Event = Dropped(byte: Byte) | Got(frame: Frame)

  predicate Forced(b: seq<Byte>, e: Event) {
    match Head(b)
    case Halt => false
    case Skip => e == Dropped(b[0])
    case Reject => e == Dropped(b[0])
    case Emit(f) => e == Got(f)
  }

  /** Starting from buffer `b`, forced moves produce the events `es` and leave `r`. */
  predicate Moves(b: seq<Byte>, es: seq<Event>, r: seq<Byte>)
    decreases |es|
  {
    if es == [] then b == r
    else Forced(b, es[0]) && Moves(b[Width(Head(b))..], es[1..], r)
  }

  function Frames(es: seq<Event>): seq<Frame> {
    if es == [] then []
    else (if es[0].Got? then [es[0].frame] else []) + Frames(es[1..])
  }

  /** The bytes an event stands for: a dropped byte is itself, a frame is its encoding. */
  function Bytes(es: seq<Event>): seq<Byte> {
    if es == [] then []
    else (match es[0] case Dropped(x) => [x] case Got(f) => Encode(f)) + Bytes(es[1..])
  }

  /** The head of a buffer is emitted exactly when the buffer starts with that frame's encoding. */
  lemma EmitsIffEncoded(b: seq<Byte>, f: Frame)
    ensures Head(b) == Emit(f) <==> Encode(f) <= b
  {
    hide Checksum, FromU8, MsgType.ToU8;
    if Head(b) == Emit(f) {
      KnownType(b[2], f.msg);
      var n := 4 + b[3] as int;
      assert b[2..n] == Body(f);
      assert b[..n + 1] == Encode(f);
    }
    if Encode(f) <= b {
      EncodedEmits(b, f);
    }
  }

  lemma EncodedEmits(b: seq<Byte>, f: Frame)
    requires Encode(f) <= b
    ensures Head(b) == Emit(f)
  {
    hide Checksum, FromU8, MsgType.ToU8;
    var e, n := Encode(f), 4 + |f.payload|;
    assert b[0] == e[0] && b[1] == e[1] && b[2] == e[2] && b[3] == e[3] && b[n] == e[n];
    KnownType(b[2], f.msg);
    assert b[2..n] == e[2..n] == Body(f);
    assert b[4..n] == f.payload;
  }

  lemma KnownType(v: Byte, m: MsgType)
    ensures FromU8(v) == Some(m) <==> v == m.ToU8()
  {}

  /** The bytes a forced event stands for are the ones it takes off the buffer. */
  lemma EventBytes(b: seq<Byte>, e: Event)
    requires Forced(b, e)
    ensures Width(Head(b)) <= |b| && Bytes([e]) == b[..Width(Head(b))]
  {
    if e.Got? {
      EmitsIffEncoded(b, e.frame);
    }
    assert [e][1..] == [];
  }

  /** Later bytes never change a move that was already forced. */
  lemma ForcedStays(b: seq<Byte>, d: seq<Byte>)
    requires Head(b) != Halt
    ensures Head(b + d) == Head(b)
    ensures (b + d)[Width(Head(b))..] == b[Width(Head(b))..] + d
  {
    if |b| >= 5 && |b| >= 5 + b[3] as int {
      var n := 4 + b[3] as int;
      assert (b + d)[2..n] == b[2..n];
      assert (b + d)[4..n] == b[4..n];
    }
  }

  lemma {:induction false} MovesStay(b: seq<Byte>, es: seq<Event>, r: seq<Byte>, d: seq<Byte>)
    requires Moves(b, es, r)
    ensures Moves(b + d, es, r + d)
    decreases |es|
  {
    if es != [] {
      ForcedStays(b, d);
      MovesStay(b[Width(Head(b))..], es[1..], r, d);
    }
  }

  lemma MovesCons(b: seq<Byte>, e: Event, es: seq<Event>, r: seq<Byte>)
    requires Forced(b, e) && Moves(b[Width(Head(b))..], es, r)
    ensures Moves(b, [e] + es, r)
  {
    assert ([e] + es)[1..] == es;
    hide Head, Forced;
  }

  lemma {:induction false} FramesAppend(es: seq<Event>, fs: seq<Event>)
    ensures Frames(es + fs) == Frames(es) + Frames(fs)
    decreases |es|
  {
    if es == [] {
      assert es + fs == fs;
    } else {
      assert (es + fs)[1..] == es[1..] + fs;
      FramesAppend(es[1..], fs);
    }
  }

  lemma {:induction false} MovesCompose(b: seq<Byte>, es: seq<Event>, r: seq<Byte>, fs: seq<Event>, q: seq<Byte>)
    requires Moves(b, es, r) && Moves(r, fs, q)
    ensures Moves(b, es + fs, q)
    ensures Frames(es + fs) == Frames(es) + Frames(fs)
    decreases |es|
  {
    FramesAppend(es, fs);
    if es == [] {
      assert es + fs == fs;
    } else {
      var w := Width(Head(b));
      assert Forced(b, es[0]) && Moves(b[w..], es[1..], r);
      hide *;
      MovesCompose(b[w..], es[1..], r, fs, q);
      MovesCons(b, es[0], es[1..] + fs, q);
      assert es + fs == [es[0]] + (es[1..] + fs);
    }
  }

  /** Byte conservation: events and leftover buffer spell out exactly the bytes consumed. */
  lemma {:induction false} MovesConserve(b: seq<Byte>, es: seq<Event>, r: seq<Byte>)
    requires Moves(b, es, r)
    ensures b == Bytes(es) + r
    decreases |es|
  {
    if es == [] {
      assert Bytes(es) == [];
    } else {
      var w := Width(Head(b));
      assert Forced(b, es[0]) && Moves(b[w..], es[1..], r);
      hide *;
      EventBytes(b, es[0]);
      MovesConserve(b[w..], es[1..], r);
      BytesUncons(es);
      SplitAppend(b, w, Bytes(es[1..]), r);
    }
  }

  lemma BytesUncons(es: seq<Event>)
    requires es != []
    ensures Bytes(es) == Bytes([es[0]]) + Bytes(es[1..])
  {
    assert [es[0]][1..] == [];
  }

  lemma SplitAppend(b: seq<Byte>, w: nat, x: seq<Byte>, r: seq<Byte>)
    requires w <= |b| && b[w..] == x + r
    ensures b == b[..w] + x + r
  {}

  /// ---- Feeding a stream in chunks ----

  function Flat(chunks: seq<seq<Byte>>): seq<Byte> {
    if chunks == [] then [] else chunks[0] + Flat(chunks[1..])
  }

  /** The frames returned by successive `push` calls, and the buffer left at the end. */
  function Feed(b: seq<Byte>, chunks: seq<seq<Byte>>): Output
    decreases |chunks|
  {
    if chunks == [] then Output([], b)
    else
      var p := Pushed(b + chunks[0]);
      var q := Feed(p.rest, chunks[1..]);
      Output(p.frames + q.frames, q.rest)
  }

  /** One `try_pop` is a run of forced moves. */
  lemma {:induction false} PopMoves(b: seq<Byte>) returns (es: seq<Event>)
    ensures Moves(b, es, Popped(b).rest) && Frames(es) == Popped(b).frames
    decreases |b|
  {
    match Head(b)
    case Halt => es := [];
    case Skip =>
      var tail := PopMoves(b[1..]);
      es := [Dropped(b[0])] + tail;
    case Reject => es := [Dropped(b[0])];
    case Emit(f) => es := [Got(f)];
  }

  /** One `push` is a run of forced moves. */
  lemma {:induction false} PushMoves(b: seq<Byte>) returns (es: seq<Event>)
    ensures Moves(b, es, Pushed(b).rest) && Frames(es) == Pushed(b).frames
    decreases |b|
  {
    es := PopMoves(b);
    var p := Popped(b);
    if p.frames != [] {
      var fs := PushMoves(p.rest);
      MovesCompose(b, es, p.rest, fs, Pushed(p.rest).rest);
      es := es + fs;
    }
  }

  lemma FeedUncons(b: seq<Byte>, chunks: seq<seq<Byte>>)
    ensures chunks == [] ==> Feed(b, chunks) == Output([], b) && b + Flat(chunks) == b
    ensures chunks != [] ==>
              var p := Pushed(b + chunks[0]);
              var q := Feed(p.rest, chunks[1..]);
              Feed(b, chunks) == Output(p.frames + q.frames, q.rest) &&
              Flat(chunks) == chunks[0] + Flat(chunks[1..])
  {
    hide Pushed;
  }

  lemma MovesNil(b: seq<Byte>)
    ensures Moves(b, [], b) && Frames([]) == []
  {}

  /** So is any run of calls, on the whole stream. */
  lemma {:induction false} FeedMoves(b: seq<Byte>, chunks: seq<seq<Byte>>) returns (es: seq<Event>)
    ensures Moves(b + Flat(chunks), es, Feed(b, chunks).rest)
    ensures Frames(es) == Feed(b, chunks).frames
    decreases |chunks|
  {
    hide *;
    FeedUncons(b, chunks);
    if chunks == [] {
      es := [];
      MovesNil(b);
    } else {
      var c, later := chunks[0], Flat(chunks[1..]);
      var p := Pushed(b + c);
      var q := Feed(p.rest, chunks[1..]);
      var fs := PushMoves(b + c);
      var gs := FeedMoves(p.rest, chunks[1..]);
      MovesStay(b + c, fs, p.rest, later);
      MovesCompose(b + c + later, fs, p.rest + later, gs, q.rest);
      es := fs + gs;
      assert b + c + later == b + (c + later);
    }
  }

  /** Soundness and conservation over any run of calls on arbitrary bytes: what was ever
      pushed is, in order, an interleaving of dropped bytes and the exact encodings of the
      returned frames, followed by the current buffer; and a byte is dropped only where no
      encoded frame begins. */
  lemma {:induction false} FeedConserves(b: seq<Byte>, chunks: seq<seq<Byte>>) returns (es: seq<Event>)
    ensures Frames(es) == Feed(b, chunks).frames
    ensures b + Flat(chunks) == Bytes(es) + Feed(b, chunks).rest
    ensures forall k, f :: 0 <= k < |es| && es[k].Dropped? ==>
                             !(Encode(f) <= Bytes(es[k..]) + Feed(b, chunks).rest)
  {
    es := FeedMoves(b, chunks);
    MovesConserve(b + Flat(chunks), es, Feed(b, chunks).rest);
    DropsAreJustified(b + Flat(chunks), es, Feed(b, chunks).rest);
  }

  lemma {:induction false} DropsAreJustified(b: seq<Byte>, es: seq<Event>, r: seq<Byte>)
    requires Moves(b, es, r)
    ensures forall k, f :: 0 <= k < |es| && es[k].Dropped? ==>
                             !(Encode(f) <= Bytes(es[k..]) + r)
    decreases |es|
  {
    if es != [] {
      DropsAreJustified(b[Width(Head(b))..], es[1..], r);
      forall k, f | 0 <= k < |es| && es[k].Dropped?
        ensures !(Encode(f) <= Bytes(es[k..]) + r)
      {
        if k == 0 {
          MovesConserve(b, es, r);
          assert es[0..] == es;
          EmitsIffEncoded(b, f);
        } else {
          assert es[k..] == es[1..][k - 1..];
        }
      }
    }
  }

  /// ---- The reference parse, and independence of the cutting ----

  /** The whole-stream parse: keep moving until nothing is forced. It stops at a frame of
      unknown type, and unlike one `push` it carries on after a bad checksum. */
  function Parse(b: seq<Byte>): Output
    decreases |b|
  {
    var m := Head(b);
    if m == Halt then Output([], b)
    else
      var q := Parse(b[Width(m)..]);
      Output((if m.Emit? then [m.frame] else []) + q.frames, q.rest)
  }

  lemma ParseStep(b: seq<Byte>, e: Event)
    requires Forced(b, e)
    ensures var q := Parse(b[Width(Head(b))..]);
            Parse(b) == Output(Frames([e]) + q.frames, q.rest)
  {
    assert [e][1..] == [];
  }

  lemma FramesUncons(es: seq<Event>)
    requires es != []
    ensures Frames(es) == Frames([es[0]]) + Frames(es[1..])
  {
    assert [es[0]][1..] == [];
  }

  lemma MovesUncons(b: seq<Byte>, es: seq<Event>, r: seq<Byte>)
    requires Moves(b, es, r)
    ensures es == [] ==> b == r && Frames(es) == []
    ensures es != [] ==> Forced(b, es[0]) && Width(Head(b)) <= |b| && Moves(b[Width(Head(b))..], es[1..], r)
  {
    hide Head, Forced;
  }

  lemma {:induction false} ParseAfterMoves(b: seq<Byte>, es: seq<Event>, r: seq<Byte>)
    requires Moves(b, es, r)
    ensures Parse(b) == Output(Frames(es) + Parse(r).frames, Parse(r).rest)
    decreases |es|
  {
    hide *;
    MovesUncons(b, es, r);
    if es != [] {
      ParseStep(b, es[0]);
      FramesUncons(es);
      ParseAfterMoves(b[Width(Head(b))..], es[1..], r);
    }
  }

  /** However the stream is cut, the frames returned so far, followed by a parse of what is
      still buffered, make up the one reference parse of the whole stream. */
  lemma {:induction false} FeedIsPrefixOfParse(b: seq<Byte>, chunks: seq<seq<Byte>>)
    ensures var o := Feed(b, chunks);
            Parse(b + Flat(chunks)) == Output(o.frames + Parse(o.rest).frames, Parse(o.rest).rest)
  {
    var es := FeedMoves(b, chunks);
    ParseAfterMoves(b + Flat(chunks), es, Feed(b, chunks).rest);
  }

  lemma PopProgress(b: seq<Byte>)
    requires Head(b) != Halt
    ensures |Popped(b).rest| < |b|
  {}

  /** A push that finds something to do shortens the buffer. */
  lemma {:induction false} PushProgress(b: seq<Byte>)
    ensures |Pushed(b).rest| <= |b|
    ensures Head(b) != Halt ==> |Pushed(b).rest| < |b|
    ensures Head(b) == Halt ==> Pushed(b) == Output([], b)
    decreases |b|
  {
    if Head(b) != Halt {
      PopProgress(b);
    }
    if Popped(b).frames != [] {
      PushProgress(Popped(b).rest);
    }
  }

  function Empties(n: nat): seq<seq<Byte>> { seq(n, _ => []) }

  lemma PushThenParse(b: seq<Byte>)
    ensures var p := Pushed(b);
            Parse(b) == Output(p.frames + Parse(p.rest).frames, Parse(p.rest).rest)
  {
    var es := PushMoves(b);
    ParseAfterMoves(b, es, Pushed(b).rest);
  }

  /** At most one empty push per buffered byte brings out everything the buffer holds. */
  lemma {:induction false} FlushCompletes(b: seq<Byte>, n: nat)
    requires n >= |b|
    ensures Feed(b, Empties(n)) == Parse(b)
    decreases n
  {
    if n > 0 {
      hide Head, Pushed, Parse;
      assert b + Empties(n)[0] == b;
      assert Empties(n)[1..] == Empties(n - 1);
      PushProgress(b);
      PushThenParse(b);
      if Head(b) == Halt {
        IdleFeed(b, n);
        ParseHalted(b);
      } else {
        FlushCompletes(Pushed(b).rest, n - 1);
      }
    }
  }

  lemma {:induction false} IdleFeed(b: seq<Byte>, n: nat)
    requires Head(b) == Halt
    ensures Feed(b, Empties(n)) == Output([], b)
    decreases n
  {
    if n > 0 {
      assert b + Empties(n)[0] == b;
      assert Empties(n)[1..] == Empties(n - 1);
      PushProgress(b);
      IdleFeed(b, n - 1);
    }
  }

  lemma {:induction false} FeedThenFeed(b: seq<Byte>, cs: seq<seq<Byte>>, ds: seq<seq<Byte>>)
    ensures var o := Feed(b, cs);
            var q := Feed(o.rest, ds);
            Feed(b, cs + ds) == Output(o.frames + q.frames, q.rest)
    decreases |cs|
  {
    if cs == [] {
      assert cs + ds == ds;
    } else {
      assert (cs + ds)[1..] == cs[1..] + ds;
      FeedThenFeed(Pushed(b + cs[0]).rest, cs[1..], ds);
    }
  }

  /** Confluence. Cut one byte stream in two different ways: after enough empty pushes both
      have returned the same frames, the reference parse, and hold the same buffer. */
  lemma {:induction false} ChunkingConfluence(b: seq<Byte>, cs: seq<seq<Byte>>, ds: seq<seq<Byte>>, m: nat, n: nat)
    requires Flat(cs) == Flat(ds)
    requires m >= |Feed(b, cs).rest| && n >= |Feed(b, ds).rest|
    ensures Feed(b, cs + Empties(m)) == Feed(b, ds + Empties(n)) == Parse(b + Flat(cs))
  {
    FeedIsPrefixOfParse(b, cs);
    FeedIsPrefixOfParse(b, ds);
    FeedThenFeed(b, cs, Empties(m));
    FeedThenFeed(b, ds, Empties(n));
    FlushCompletes(Feed(b, cs).rest, m);
    FlushCompletes(Feed(b, ds).rest, n);
  }

  /// ---- Stalls ----

  /** A complete frame with a good checksum and a type the protocol does not know. */
  predicate Unknown(b: seq<Byte>) {
    AtMagic(b) && |b| >= 5 && |b| >= 5 + b[3] as int && b[4 + b[3]] == Checksum(b[2..4 + b[3]]) && FromU8(b[2]).None?
  }

  lemma UnknownStays(b: seq<Byte>, d: seq<Byte>)
    requires Unknown(b)
    ensures Unknown(b + d) && Head(b + d) == Halt
  {
    var n := 4 + b[3] as int;
    assert (b + d)[2..n] == b[2..n];
  }

  /** Bytes that complete whatever the head waits for, with a checksum that is wrong. */
  lemma Unblock(b: seq<Byte>) returns (d: seq<Byte>)
    requires Head(b) == Halt && !Unknown(b)
    ensures Head(b + d) != Halt
  {
    if |b| < 2 {
      d := [0, 0];
    } else {
      var p := if |b| < 4 then b + seq(4 - |b|, _ => 0) else b;
      var n := 4 + p[3] as int;
      var q := p + seq(n - |p|, _ => 0);
      var r := q + [(Checksum(q[2..n]) + 1) % 0x100];
      d := r[|b|..];
      assert b + d == r && r[2..n] == q[2..n];
    }
  }

  /** The decoder waits forever, whatever is sent next, if and only if a complete frame of unknown
      type stands at the head of its buffer. */
  lemma BlockedIffUnknown(b: seq<Byte>)
    ensures (forall d :: Head(b + d) == Halt) <==> Unknown(b)
  {
    if Unknown(b) {
      forall d ensures Head(b + d) == Halt {
        UnknownStays(b, d);
      }
    } else if Head(b) == Halt {
      var d := Unblock(b);
    } else {
      assert b + [] == b;
    }
  }

  /** From then on no call returns a frame, and every byte sent piles up in the buffer. */
  lemma {:induction false} UnknownStalls(b: seq<Byte>, chunks: seq<seq<Byte>>)
    requires Unknown(b)
    ensures Feed(b, chunks) == Output([], b + Flat(chunks))
    decreases |chunks|
  {
    hide *;
    FeedUncons(b, chunks);
    if chunks != [] {
      UnknownStays(b, chunks[0]);
      PushProgress(b + chunks[0]);
      UnknownStalls(b + chunks[0], chunks[1..]);
      assert b + chunks[0] + Flat(chunks[1..]) == b + (chunks[0] + Flat(chunks[1..]));
    }
  }

  /// ---- Streams on which no checksum ever fails ----

  /** No checksum fails anywhere in the parse of `b`. */
  predicate Clean(b: seq<Byte>)
    decreases |b|
  {
    var m := Head(b);
    m == Halt || (m != Reject && Clean(b[Width(m)..]))
  }

  lemma {:induction false} CleanPop(b: seq<Byte>)
    requires Clean(b)
    ensures Clean(Popped(b).rest)
    ensures Popped(b).frames == [] ==> Popped(b) == Parse(b)
    ensures Popped(b).frames != [] ==>
              Parse(b) == Output(Popped(b).frames + Parse(Popped(b).rest).frames, Parse(Popped(b).rest).rest)
    decreases |b|
  {
    if Head(b) == Skip {
      CleanPop(b[1..]);
    }
  }

  /** On a clean buffer one push already does the whole parse. */
  lemma {:induction false} CleanPush(b: seq<Byte>)
    requires Clean(b)
    ensures Pushed(b) == Parse(b)
    decreases |b|
  {
    CleanPop(b);
    if Popped(b).frames != [] {
      CleanPush(Popped(b).rest);
    }
  }

  lemma {:induction false} CleanSplits(b: seq<Byte>, d: seq<Byte>)
    requires Clean(b + d)
    ensures Clean(b) && Clean(Parse(b).rest + d)
    decreases |b|
  {
    if Head(b) != Halt {
      ForcedStays(b, d);
      CleanSplits(b[Width(Head(b))..], d);
    }
  }

  /** If no checksum can fail, the calls return everything as it becomes complete: no empty
      pushes are needed, whatever the cutting. */
  lemma {:induction false} CleanFeed(b: seq<Byte>, chunks: seq<seq<Byte>>)
    requires Clean(b + Flat(chunks))
    requires chunks == [] ==> Head(b) == Halt
    ensures Feed(b, chunks) == Parse(b + Flat(chunks))
    decreases |chunks|
  {
    if chunks == [] {
      assert b + Flat(chunks) == b;
    } else {
      var c, later := chunks[0], Flat(chunks[1..]);
      assert b + Flat(chunks) == (b + c) + later;
      CleanSplits(b + c, later);
      CleanPush(b + c);
      ParseHalts(b + c);
      CleanFeed(Parse(b + c).rest, chunks[1..]);
      FeedIsPrefixOfParse(b, chunks);
      ParseHalts(Parse(b + c).rest + later);
      ParseHalted(Feed(b, chunks).rest);
    }
  }

  lemma {:induction false} ParseHalts(b: seq<Byte>)
    ensures Head(Parse(b).rest) == Halt
    decreases |b|
  {
    if Head(b) != Halt {
      ParseHalts(b[Width(Head(b))..]);
    }
  }

  lemma ParseHalted(b: seq<Byte>)
    ensures Head(b) == Halt ==> Parse(b) == Output([], b)
  {}

  /// ---- Round trip through noise ----

  /** A frame preceded by noise on the line. */
  datatype Item = Item(noise: seq<Byte>, frame: Frame)

  /** Noise that never shows the magic pair. */
  predicate Quiet(noise: seq<Byte>) {
    forall i :: 0 <= i < |noise| - 1 ==> !(noise[i] == MAGIC0 && noise[i + 1] == MAGIC1)
  }

  predicate Sendable(items: seq<Item>) {
    forall i :: 0 <= i < |items| ==> Quiet(items[i].noise)
  }

  function Line(items: seq<Item>, tail: seq<Byte>): seq<Byte>
    requires Sendable(items)
  {
    if items == [] then tail
    else items[0].noise + Encode(items[0].frame) + Line(items[1..], tail)
  }

  function Sent(items: seq<Item>): seq<Frame> {
    if items == [] then [] else [items[0].frame] + Sent(items[1..])
  }

  function LastByte(noise: seq<Byte>): seq<Byte> {
    if noise == [] then [] else [noise[|noise| - 1]]
  }

  lemma {:induction false} QuietTail(tail: seq<Byte>)
    requires Quiet(tail)
    ensures Clean(tail) && Parse(tail) == Output([], LastByte(tail))
    decreases |tail|
  {
    if |tail| >= 2 {
      assert Head(tail) == Skip;
      QuietTail(tail[1..]);
    }
  }

  lemma {:induction false} QuietBeforeFrame(noise: seq<Byte>, f: Frame, more: seq<Byte>)
    requires Quiet(noise)
    ensures Parse(noise + Encode(f) + more) == Output([f] + Parse(more).frames, Parse(more).rest)
    ensures Clean(more) ==> Clean(noise + Encode(f) + more)
    decreases |noise|
  {
    var b := noise + Encode(f) + more;
    if noise == [] {
      assert Encode(f) <= b;
      EmitsIffEncoded(b, f);
      assert b[|Encode(f)|..] == more;
    } else {
      assert b[0] == noise[0] && b[1] == if |noise| > 1 then noise[1] else MAGIC0;
      assert Head(b) == Skip;
      assert b[1..] == noise[1..] + Encode(f) + more;
      QuietBeforeFrame(noise[1..], f, more);
    }
  }

  lemma {:induction false} LineParses(items: seq<Item>, tail: seq<Byte>)
    requires Sendable(items) && Quiet(tail)
    ensures Clean(Line(items, tail))
    ensures Parse(Line(items, tail)) == Output(Sent(items), LastByte(tail))
    decreases |items|
  {
    if items == [] {
      QuietTail(tail);
    } else {
      LineParses(items[1..], tail);
      QuietBeforeFrame(items[0].noise, items[0].frame, Line(items[1..], tail));
    }
  }

  /** Round trip through noise. Frames encoded, interleaved with quiet noise and cut
      arbitrarily come back exactly once and in order, with nothing left in the buffer but
      at most the last byte of the trailing noise. */
  lemma RoundTripThroughNoise(items: seq<Item>, tail: seq<Byte>, chunks: seq<seq<Byte>>)
    requires Sendable(items) && Quiet(tail)
    requires Flat(chunks) == Line(items, tail)
    ensures Feed([], chunks) == Output(Sent(items), LastByte(tail))
  {
    LineParses(items, tail);
    assert [] + Flat(chunks) == Flat(chunks);
    CleanFeed([], chunks);
  }
}
