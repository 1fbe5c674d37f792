/** Catch-up framing: serialized objects are packed greedily into frames under a byte budget. */
module SseFraming {

  newtype byte = b: int | 0 <= b < 256

  /** A serialized object, UTF-8 encoded. */
  type Text = seq<byte>

  const SSE_LINE_BUDGET: nat := 200_000

  /** What an object adds to a frame: its bytes and the joining comma. */
  function Weight(s: Text): nat {
    |s| + 1
  }

  function Weights(batch: seq<Text>): nat {
    if batch == [] then 0 else Weights(batch[..|batch| - 1]) + Weight(batch[|batch| - 1])
  }

  function Flatten(frames: seq<seq<Text>>): seq<Text> {
    if frames == [] then [] else frames[0] + Flatten(frames[1..])
  }

  /** A frame is allowed when it is not empty and within budget, or holds a single object. */
  predicate Allowed(frame: seq<Text>, budget: nat) {
    frame != [] && (Weights(frame) <= budget || |frame| == 1)
  }

  predicate IsSplit(frames: seq<seq<Text>>, objects: seq<Text>, budget: nat) {
    Flatten(frames) == objects && forall i :: 0 <= i < |frames| ==> Allowed(frames[i], budget)
  }

  /** The frame could not have taken the first object of the next one. */
  predicate Full(frame: seq<Text>, next: seq<Text>, budget: nat) {
    next != [] && budget < Weights(frame) + Weight(next[0])
  }

  predicate Packed(frames: seq<seq<Text>>, budget: nat) {
    forall i, j :: 0 <= i < |frames| && j == i + 1 < |frames| ==> Full(frames[i], frames[j], budget)
  }

  lemma {:induction false} FlattenAppend(a: seq<seq<Text>>, frame: seq<Text>)
    ensures Flatten(a + [frame]) == Flatten(a) + frame
  {
    if a == [] {
      assert [frame][1..] == [];
      assert Flatten([frame]) == frame + Flatten([]);
    } else {
      assert (a + [frame])[1..] == a[1..] + [frame];
      FlattenAppend(a[1..], frame);
    }
  }

  lemma WeightsAppend(batch: seq<Text>, s: Text)
    ensures Weights(batch + [s]) == Weights(batch) + Weight(s)
  {
    assert (batch + [s])[..|batch|] == batch;
  }

  lemma {:induction false} WeightsConcat(a: seq<Text>, b: seq<Text>)
    ensures Weights(a + b) == Weights(a) + Weights(b)
  {
    if b == [] {
      assert a + b == a;
    } else {
      var n := |b| - 1;
      assert (a + b)[..|a + b| - 1] == a + b[..n];
      WeightsConcat(a, b[..n]);
    }
  }

  /** The frames emitted and the open batch, after packing `objects`. */
  ghost predicate Packing(frames: seq<seq<Text>>, batch: seq<Text>, objects: seq<Text>, budget: nat) {
    && Flatten(frames) + batch == objects
    && (forall j :: 0 <= j < |frames| ==> Allowed(frames[j], budget))
    && Packed(frames, budget)
    && (if batch == [] then frames == [] else Allowed(batch, budget))
    && (frames != [] ==> Full(frames[|frames| - 1], batch, budget))
  }

  lemma PackInBatch(frames: seq<seq<Text>>, batch: seq<Text>, objects: seq<Text>, s: Text, budget: nat)
    requires Packing(frames, batch, objects, budget)
    requires batch == [] || Weights(batch) + Weight(s) <= budget
    ensures Packing(frames, batch + [s], objects + [s], budget)
  {
    WeightsAppend(batch, s);
    assert Flatten(frames) + (batch + [s]) == objects + [s];
  }

  lemma PackInNewBatch(frames: seq<seq<Text>>, batch: seq<Text>, objects: seq<Text>, s: Text, budget: nat)
    requires Packing(frames, batch, objects, budget)
    requires batch != [] && budget < Weights(batch) + Weight(s)
    ensures Packing(frames + [batch], [s], objects + [s], budget)
  {
    FlattenAppend(frames, batch);
    assert Flatten(frames + [batch]) + [s] == objects + [s];
  }

  lemma PackLast(frames: seq<seq<Text>>, batch: seq<Text>, objects: seq<Text>, budget: nat)
    requires Packing(frames, batch, objects, budget) && batch != []
    ensures IsSplit(frames + [batch], objects, budget) && Packed(frames + [batch], budget)
  {
    FlattenAppend(frames, batch);
  }

  method SseObjectLines(objects: seq<Text>, budget: nat := SSE_LINE_BUDGET) returns (frames: seq<seq<Text>>)
    ensures IsSplit(frames, objects, budget)
    ensures Packed(frames, budget)
  {
    frames := [];
    var batch: seq<Text> := [];
    var size := 0;
    for i := 0 to |objects|
      invariant Packing(frames, batch, objects[..i], budget)
      invariant size == Weights(batch)
    {
      var s := objects[i];
      var bytes := |s| + 1;
      ghost var packed := objects[..i];
      assert objects[..i + 1] == packed + [s];
      if batch != [] && size + bytes > budget {
        PackInNewBatch(frames, batch, packed, s, budget);
        frames := frames + [batch];
        batch, size := [], 0;
        assert batch + [s] == [s];
      } else {
        PackInBatch(frames, batch, packed, s, budget);
      }
      assert Packing(frames, batch + [s], packed + [s], budget);
      WeightsAppend(batch, s);
      batch := batch + [s];
      size := size + bytes;
    }
    assert objects[..|objects|] == objects;
    if batch != [] {
      PackLast(frames, batch, objects, budget);
      frames := frames + [batch];
    }
  }

  /** The objects of a frame as they go out: joined by commas. */
  function Joined(frame: seq<Text>): Text
    requires frame != []
  {
    var s := frame[|frame| - 1];
    if |frame| == 1 then s else Joined(frame[..|frame| - 1]) + [44] + s
  }

  lemma {:induction false} JoinedWeighs(frame: seq<Text>)
    requires frame != []
    ensures |Joined(frame)| + 1 == Weights(frame)
    decreases |frame|
  {
    if |frame| == 1 {
      assert frame[..0] == [];
    } else {
      JoinedWeighs(frame[..|frame| - 1]);
    }
  }

  /** On the wire: a frame of several objects is under two hundred thousand bytes between its
      brackets, and with the first object of the next frame it would not be. */
  lemma LinesFit(frames: seq<seq<Text>>, objects: seq<Text>, i: nat)
    requires IsSplit(frames, objects, SSE_LINE_BUDGET) && Packed(frames, SSE_LINE_BUDGET) && i < |frames|
    ensures frames[i] != [] && (1 < |frames[i]| ==> |Joined(frames[i])| < 200_000)
    ensures i + 1 < |frames| ==> frames[i + 1] != [] && 200_000 <= |Joined(frames[i] + [frames[i + 1][0]])|
  {
    assert Allowed(frames[i], SSE_LINE_BUDGET);
    JoinedWeighs(frames[i]);
    if i + 1 < |frames| {
      var next := i + 1;
      assert Full(frames[i], frames[next], SSE_LINE_BUDGET);
      WeightsAppend(frames[i], frames[next][0]);
      JoinedWeighs(frames[i] + [frames[next][0]]);
    }
  }

  /** A packed split whose objects end another split uses no more frames than it does. */
  lemma {:induction false} StaysAhead(frames: seq<seq<Text>>, other: seq<seq<Text>>, ahead: seq<Text>, budget: nat)
    requires Packed(frames, budget) && (forall i :: 0 <= i < |frames| ==> frames[i] != [])
    requires forall i :: 0 <= i < |other| ==> Allowed(other[i], budget)
    requires Flatten(other) == ahead + Flatten(frames)
    ensures |frames| <= |other|
    decreases |other|
  {
    if frames != [] {
      var f := frames[0];
      assert |Flatten(frames)| >= |f| > 0;
      var o := other[0];
      var rest := Flatten(frames[1..]);
      assert Flatten(frames) == f + rest;
      if |o| <= |ahead| + |f| {
        assert o == (ahead + f)[..|o|] by {
          assert o == Flatten(other)[..|o|] == (ahead + f + rest)[..|o|];
        }
        var left := (ahead + f)[|o|..];
        assert Flatten(other[1..]) == Flatten(other)[|o|..] == left + rest by {
          assert ahead + Flatten(frames) == (ahead + f) + rest;
        }
        StaysAhead(frames[1..], other[1..], left, budget);
      } else {
        assert ahead + Flatten(frames) == (ahead + f) + rest;
        assert |rest| > 0;
        var g := frames[1];
        assert Full(f, g, budget) && frames[1..][0] == g;
        var after := rest[1..];
        assert rest == [g[0]] + after;
        assert (ahead + f) + rest == ahead + f + [g[0]] + after;
        TooFull(ahead, f, g[0], after, o, budget);
        assert false;
      }
    }
  }

  /** A frame reaching past a packed frame and into the next one is over budget. */
  lemma TooFull(ahead: seq<Text>, f: seq<Text>, next: Text, after: seq<Text>, o: seq<Text>, budget: nat)
    requires f != [] && budget < Weights(f) + Weight(next)
    requires |ahead| + |f| < |o| && o <= ahead + f + [next] + after
    ensures budget < Weights(o) && 1 < |o|
  {
    var k := |o| - |ahead| - |f| - 1;
    assert o == ahead + f + [next] + after[..k];
    WeightsConcat(ahead + f + [next], after[..k]);
    WeightsAppend(ahead + f, next);
    WeightsConcat(ahead, f);
  }

  /** Greedy framing is optimal: no other order-preserving split under the same rule uses
      fewer frames than the one `SseObjectLines` returns. */
  lemma GreedyIsOptimal(frames: seq<seq<Text>>, other: seq<seq<Text>>, objects: seq<Text>, budget: nat)
    requires IsSplit(frames, objects, budget) && Packed(frames, budget)
    requires IsSplit(other, objects, budget)
    ensures |frames| <= |other|
  {
    assert [] + Flatten(frames) == Flatten(frames);
    StaysAhead(frames, other, [], budget);
  }
}
