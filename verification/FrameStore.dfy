/** The store of sent frames that makes a session resumable. */
module FrameStores {
  import opened Options
  import opened Frames
  import opened Codec

  /** The frames that a store can count: EXT is not one of them, because it has no size. */
  predicate Countable(f: Frame) {
    !f.Ext?
  }

  predicate AllCountable(fs: seq<Frame>) {
    forall i | 0 <= i < |fs| :: Countable(fs[i])
  }

  function Size(f: Frame): (n: nat)
    requires Countable(f)
    ensures n >= 6
  {
    SizeOf(f)
  }

  /** The bytes of a list of frames. */
  function Total(fs: seq<Frame>): nat
    requires AllCountable(fs)
  {
    if fs == [] then 0 else Size(fs[0]) + Total(fs[1..])
  }

  datatype Store = Store(frames: seq<Frame>, lastReceived: nat, firstAvailable: nat, lastSent: nat)
  {
    predicate Valid() {
      AllCountable(frames)
    }
  }

  const NEW_STORE := Store([], 0, 0, 0)

  function StoreFrame(s: Store, f: Frame): Store
    requires Countable(f)
  {
    s.(lastSent := s.lastSent + Size(f), frames := s.frames + [f])
  }

  function RecordFrame(s: Store, f: Frame): Store
    requires Countable(f)
  {
    s.(lastReceived := s.lastReceived + Size(f))
  }

  /** Shift frames while there are bytes to drop: the frames kept and the bytes not accounted for. */
  function DropBytes(frames: seq<Frame>, bytesToDrop: int): (r: (seq<Frame>, int))
    requires AllCountable(frames)
    ensures AllCountable(r.0)
    decreases |frames|
  {
    if bytesToDrop > 0 && frames != []
    then DropBytes(frames[1..], bytesToDrop - Size(frames[0]))
    else (frames, bytesToDrop)
  }

  function DropTo(s: Store, position: nat): (r: (Store, bool))
    requires s.Valid()
    ensures r.0.Valid()
  {
    var (kept, left) := DropBytes(s.frames, position - s.firstAvailable);
    if left == 0 then (s.(frames := kept, firstAvailable := position), true)
    else (s.(frames := kept), false)
  }

  class FrameStore {
    var storedFrames: seq<Frame>
    var lastReceivedFramePosition: nat
    var firstAvailableFramePosition: nat
    var lastSentFramePosition: nat

    constructor ()
      ensures View() == NEW_STORE
    {
      storedFrames := [];
      lastReceivedFramePosition, firstAvailableFramePosition, lastSentFramePosition := 0, 0, 0;
    }

    function View(): Store
      reads this
    {
      Store(storedFrames, lastReceivedFramePosition, firstAvailableFramePosition, lastSentFramePosition)
    }

    method StoreSent(frame: Frame)
      requires Countable(frame)
      modifies this
      ensures View() == StoreFrame(old(View()), frame)
    {
      lastSentFramePosition := lastSentFramePosition + Size(frame);
      storedFrames := storedFrames + [frame];
    }

    method Record(frame: Frame)
      requires Countable(frame)
      modifies this
      ensures View() == RecordFrame(old(View()), frame)
    {
      lastReceivedFramePosition := lastReceivedFramePosition + Size(frame);
    }

    /** False stands for the exception, thrown after frames have already been shifted away. */
    method DropToPosition(lastReceivedPosition: nat) returns (ok: bool)
      requires View().Valid()
      modifies this
      ensures View().Valid()
      ensures (View(), ok) == DropTo(old(View()), lastReceivedPosition)
    {
      var bytesToDrop := lastReceivedPosition - firstAvailableFramePosition;
      while bytesToDrop > 0 && |storedFrames| > 0
        invariant AllCountable(storedFrames)
        invariant DropBytes(storedFrames, bytesToDrop)
               == DropBytes(old(storedFrames), lastReceivedPosition - old(firstAvailableFramePosition))
        invariant firstAvailableFramePosition == old(firstAvailableFramePosition)
        invariant lastSentFramePosition == old(lastSentFramePosition)
        invariant lastReceivedFramePosition == old(lastReceivedFramePosition)
        decreases |storedFrames|
      {
        var storedFrame := storedFrames[0];
        storedFrames := storedFrames[1..];
        bytesToDrop := bytesToDrop - Size(storedFrame);
      }
      if bytesToDrop != 0 {
        return false;
      }
      firstAvailableFramePosition := lastReceivedPosition;
      return true;
    }
  }

  // A store is a window on the log of everything it was ever given

  /** `s` holds the log from its `dropped`-th frame on, and its two positions are where the window begins
      and where the log ends. */
  predicate WindowOf(s: Store, log: seq<Frame>, dropped: nat) {
    && AllCountable(log) && dropped <= |log|
    && s.frames == log[dropped..]
    && s.firstAvailable == Total(log[..dropped])
    && s.lastSent == Total(log)
  }

  lemma {:induction false} TotalAppend(a: seq<Frame>, b: seq<Frame>)
    requires AllCountable(a) && AllCountable(b)
    ensures AllCountable(a + b) && Total(a + b) == Total(a) + Total(b)
    decreases |a|
  {
    if a == [] {
      assert a + b == b;
    } else {
      assert (a + b)[1..] == a[1..] + b;
      TotalAppend(a[1..], b);
    }
  }

  lemma TotalSplit(log: seq<Frame>, k: nat)
    requires AllCountable(log) && k <= |log|
    ensures Total(log) == Total(log[..k]) + Total(log[k..])
  {
    assert log == log[..k] + log[k..];
    TotalAppend(log[..k], log[k..]);
  }

  lemma TotalBetween(log: seq<Frame>, j: nat, k: nat)
    requires AllCountable(log) && j <= k <= |log|
    ensures Total(log[..k]) == Total(log[..j]) + Total(log[j..k])
  {
    assert log[..k] == log[..j] + log[j..k];
    TotalAppend(log[..j], log[j..k]);
  }

  /** Positions grow strictly with the number of frames, so each boundary has one frame count. */
  lemma PositionsGrow(log: seq<Frame>, j: nat, k: nat)
    requires AllCountable(log) && j < k <= |log|
    ensures Total(log[..j]) < Total(log[..k])
  {
    TotalBetween(log, j, k);
  }

  /** Dropping up to a frame boundary shifts exactly the frames before it. */
  lemma {:induction false} DropBytesToBoundary(frames: seq<Frame>, j: nat)
    requires AllCountable(frames) && j <= |frames|
    ensures DropBytes(frames, Total(frames[..j])) == (frames[j..], 0)
    decreases j
  {
    if j > 0 {
      assert frames[..j][1..] == frames[1..][..j - 1];
      assert frames[j..] == frames[1..][j - 1..];
      DropBytesToBoundary(frames[1..], j - 1);
    }
  }

  /** Dropping leaves no rest only at a frame boundary. */
  lemma {:induction false} DropBytesIsExact(frames: seq<Frame>, bytesToDrop: int) returns (j: nat)
    requires AllCountable(frames) && DropBytes(frames, bytesToDrop).1 == 0
    ensures j <= |frames| && bytesToDrop == Total(frames[..j])
    decreases |frames|
  {
    j := 0;
    if bytesToDrop > 0 && frames != [] {
      var k := DropBytesIsExact(frames[1..], bytesToDrop - Size(frames[0]));
      j := k + 1;
      assert frames[..j][1..] == frames[1..][..k];
    }
  }

  /** `dropTo(p)` succeeds exactly when `p` is a frame boundary inside the window, and what it leaves is
      the window that begins there. */
  lemma DropToMovesTheWindow(s: Store, log: seq<Frame>, dropped: nat, position: nat)
    requires WindowOf(s, log, dropped)
    ensures s.Valid()
    ensures DropTo(s, position).1 <==> exists k: nat | dropped <= k <= |log| :: position == Total(log[..k])
    ensures forall k: nat | dropped <= k <= |log| && position == Total(log[..k]) ::
              WindowOf(DropTo(s, position).0, log, k)
    ensures DropTo(s, position).0.lastReceived == s.lastReceived
  {
    var window := log[dropped..];
    forall k: nat | dropped <= k <= |log| && position == Total(log[..k])
      ensures WindowOf(DropTo(s, position).0, log, k) && DropTo(s, position).1
    {
      var j := k - dropped;
      assert window[..j] == log[dropped..k] && window[j..] == log[k..];
      TotalBetween(log, dropped, k);
      DropBytesToBoundary(window, j);
    }
    if DropTo(s, position).1 {
      var j := DropBytesIsExact(window, position - s.firstAvailable);
      assert window[..j] == log[dropped..dropped + j];
      TotalBetween(log, dropped, dropped + j);
    }
  }

  /** A failing `dropTo` moves no position, but the frames are gone: all that end before the position, and
      the one that it falls into. */
  lemma FailingDropStillDrops(s: Store, log: seq<Frame>, dropped: nat, position: nat) returns (k: nat)
    requires WindowOf(s, log, dropped) && !DropTo(s, position).1
    ensures dropped <= k <= |log| && DropTo(s, position).0 == s.(frames := log[k..])
    ensures k < |log| ==> position < Total(log[..k])
    ensures k > dropped ==> Total(log[..k - 1]) < position
  {
    var window := log[dropped..];
    var j := DropBytesUntil(window, position - s.firstAvailable);
    k := dropped + j;
    assert window[j..] == log[k..];
    assert window[..j] == log[dropped..k];
    TotalBetween(log, dropped, k);
    if j > 0 {
      assert window[..j - 1] == log[dropped..k - 1];
      TotalBetween(log, dropped, k - 1);
    }
  }

  lemma {:induction false} DropBytesUntil(frames: seq<Frame>, bytesToDrop: int) returns (j: nat)
    requires AllCountable(frames)
    ensures j <= |frames|
    ensures DropBytes(frames, bytesToDrop) == (frames[j..], bytesToDrop - Total(frames[..j]))
    ensures j < |frames| ==> bytesToDrop <= Total(frames[..j])
    ensures j > 0 ==> Total(frames[..j - 1]) < bytesToDrop
    decreases |frames|
  {
    j := 0;
    if bytesToDrop > 0 && frames != [] {
      var i := DropBytesUntil(frames[1..], bytesToDrop - Size(frames[0]));
      j := i + 1;
      assert frames[..j][1..] == frames[1..][..i];
      assert frames[j..] == frames[1..][i..];
      if i > 0 {
        assert frames[..i][1..] == frames[1..][..i - 1];
      }
    }
  }

  /** The window's size, and storing extends the log at its end. */
  lemma StoringExtendsTheLog(s: Store, log: seq<Frame>, dropped: nat, f: Frame)
    requires WindowOf(s, log, dropped) && Countable(f)
    ensures s.lastSent - s.firstAvailable == Total(s.frames)
    ensures WindowOf(StoreFrame(s, f), log + [f], dropped)
  {
    TotalSplit(log, dropped);
    TotalAppend(log, [f]);
    assert (log + [f])[..dropped] == log[..dropped];
    assert (log + [f])[dropped..] == log[dropped..] + [f];
    assert [f][1..] == [];
  }
}
