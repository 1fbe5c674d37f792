/** Object frames on the wire and the client store they drive. A frame is one message of a
    Server-Sent Events stream (section 9.2 of the WHATWG HTML Living Standard). */
module Frames {
  import opened Base

  datatype Frame = Frame(uid: Uid, payload: Dict)

  /** The payload telling a client to drop the object. */
  function Tombstone(uid: Uid, stamp: nat): Dict {
    map["uid" := Str(uid), "deleted_at" := Num(stamp)]
  }

  /** What a client shows after a payload: nothing when it carries `deleted_at`. */
  function Shown(payload: Dict): Option<Dict> {
    if IsDeleted(payload) then None else Some(payload)
  }

  /** What a client entitled to `column` shows: a missing projection shows nothing. */
  function ShownColumn(column: Option<Dict>): Option<Dict> {
    if column.None? then None else Shown(column.value)
  }

  type Store = map<Uid, Dict>

  /** The last-writer-wins store. */
  function Apply(store: Store, f: Frame): Store {
    if IsDeleted(f.payload) then store - {f.uid} else store[f.uid := f.payload]
  }

  function ApplyAll(store: Store, frames: seq<Frame>): Store
    decreases |frames|
  {
    if frames == [] then store else ApplyAll(Apply(store, frames[0]), frames[1..])
  }

  function Get<T>(m: map<Uid, T>, uid: Uid): Option<T> {
    if uid in m then Some(m[uid]) else None
  }

  /** The payload of the last frame about an object. */
  function LastFor(frames: seq<Frame>, uid: Uid): Option<Dict> {
    if frames == [] then None
    else
      var f := frames[|frames| - 1];
      if f.uid == uid then Some(f.payload) else LastFor(frames[..|frames| - 1], uid)
  }

  lemma {:induction false} ApplyAllAppend(store: Store, a: seq<Frame>, b: seq<Frame>)
    ensures ApplyAll(store, a + b) == ApplyAll(ApplyAll(store, a), b)
    decreases |a|
  {
    if a == [] {
      assert a + b == b;
    } else {
      assert (a + b)[0] == a[0] && (a + b)[1..] == a[1..] + b;
      ApplyAllAppend(Apply(store, a[0]), a[1..], b);
    }
  }

  /** A store shows for each object what the last frame about it shows. */
  lemma {:induction false} StoreFollowsLastFrame(store: Store, frames: seq<Frame>, uid: Uid)
    ensures Get(ApplyAll(store, frames), uid)
         == (var last := LastFor(frames, uid); if last.None? then Get(store, uid) else Shown(last.value))
  {
    if frames != [] {
      var n := |frames| - 1;
      StoreFollowsLastFrame(store, frames[..n], uid);
      assert frames == frames[..n] + [frames[n]];
      ApplyAllAppend(store, frames[..n], [frames[n]]);
      var prefix := ApplyAll(store, frames[..n]);
      assert ApplyAll(prefix, [frames[n]]) == Apply(prefix, frames[n]);
    }
  }

  lemma {:induction false} LastForAppend(a: seq<Frame>, b: seq<Frame>, uid: Uid)
    ensures LastFor(a + b, uid) == (if LastFor(b, uid).Some? then LastFor(b, uid) else LastFor(a, uid))
  {
    if b == [] {
      assert a + b == a;
    } else {
      var n := |b| - 1;
      assert (a + b)[|a + b| - 1] == b[n] && (a + b)[..|a + b| - 1] == a + b[..n];
      LastForAppend(a, b[..n], uid);
    }
  }

  /** The last frame about an object is one of the frames. */
  lemma {:induction false} LastForOccurs(frames: seq<Frame>, uid: Uid)
    ensures LastFor(frames, uid).Some? ==> Frame(uid, LastFor(frames, uid).value) in frames
    ensures (exists f :: f in frames && f.uid == uid) ==> LastFor(frames, uid).Some?
  {
    if frames != [] && frames[|frames| - 1].uid != uid {
      LastForOccurs(frames[..|frames| - 1], uid);
    }
  }
}
