/** The head-pose queue of `CamWarp` (Scripts/CamWarp.cs).

    The tracking decoder hands every head pose it reads to `OnNewHeadPose`,
    which queues it with its timestamp. When a camera image arrives,
    `GetHeadPose` dequeues poses until it meets the first one taken at or after
    the image's capture time, so the mesh is placed where the head was when
    the image was taken. The pose matrix is the decoder's `Matrix`, used here
    as an opaque value. */
module CamWarp {
  import opened Tracking

  const UInt64Modulus: nat := 0x1_0000_0000_0000_0000

  /** C#'s `ulong`. */
  type UInt64 = n: nat | n < 0x1_0000_0000_0000_0000

  /** Nanoseconds per millisecond: `communicationTime` is in milliseconds. */
  const NanosPerMilli: nat := 1000000

  /** One queued head pose. */
  datatype TrackingData = TrackingData(timestamp: UInt64, m: Matrix)

  /** The lookup target of `UpdateMeshPosition`:
      `image_timestamp - communicationTime * 1000000` in wrapping `ulong`
      arithmetic. Adding the delay back gives the image timestamp, and when
      the delay does not exceed the timestamp nothing wraps. */
  function LookupTarget(imageTimestamp: UInt64, communicationTime: UInt64): (t: UInt64)
    ensures (t + communicationTime * NanosPerMilli) % UInt64Modulus == imageTimestamp
    ensures communicationTime * NanosPerMilli <= imageTimestamp ==> t == imageTimestamp - communicationTime * NanosPerMilli
  {
    var delay := (communicationTime * NanosPerMilli) % UInt64Modulus;
    var t := (imageTimestamp - delay) % UInt64Modulus;
    WrapAddBack(imageTimestamp, communicationTime * NanosPerMilli, t);
    t
  }

  /** Subtracting modulo 2^64 and adding back again is the identity. */
  lemma WrapAddBack(a: UInt64, d: nat, t: int)
    requires t == (a - d % UInt64Modulus) % UInt64Modulus
    ensures (t + d) % UInt64Modulus == a
    ensures d <= a ==> t == a - d
  {
    var r := d % UInt64Modulus;
    var q := d / UInt64Modulus;
    assert d == q * UInt64Modulus + r;
    if r <= a {
      assert t == a - r;
      assert t + d == a + q * UInt64Modulus;
    } else {
      assert t == a - r + UInt64Modulus;
      assert t + d == a + (q + 1) * UInt64Modulus;
    }
  }

  /** The entry `GetHeadPose` stops at in a non-empty queue: the first one
      whose timestamp reaches `target`, or the last entry when none does. */
  function StopIndex(q: seq<TrackingData>, target: UInt64): (i: nat)
    requires q != []
    ensures i < |q|
    ensures forall j :: 0 <= j < i ==> q[j].timestamp < target
    ensures q[i].timestamp >= target || i == |q| - 1
  {
    if q[0].timestamp >= target || |q| == 1 then 0
    else 1 + StopIndex(q[1..], target)
  }

  /** The stopping entry is the only one with the two properties above: every
      entry before it is earlier than the target, and it reaches the target
      unless it is the last. */
  lemma StopIndexUnique(q: seq<TrackingData>, target: UInt64, i: nat)
    requires i < |q|
    requires forall j :: 0 <= j < i ==> q[j].timestamp < target
    requires q[i].timestamp >= target || i == |q| - 1
    ensures i == StopIndex(q, target)
  {
  }

  /** The pose `GetHeadPose` returns and the queue it leaves behind. */
  function HeadPoseAfter(q: seq<TrackingData>, target: UInt64): (r: (Matrix, seq<TrackingData>))
    ensures q == [] ==> r == (Identity, q)
    ensures q != [] ==> |r.1| < |q| && r.1 == q[|q| - |r.1|..]
    ensures q != [] ==> var i := |q| - |r.1| - 1;
      r.0 == q[i].m && (forall j :: 0 <= j < i ==> q[j].timestamp < target) &&
      (q[i].timestamp >= target || r.1 == [])
  {
    if q == [] then (Identity, q)
    else
      var i := StopIndex(q, target);
      (q[i].m, q[i + 1..])
  }

  /** When no queued pose reaches the target the queue is emptied and the
      newest pose is returned. */
  lemma NoneReachedTakesLast(q: seq<TrackingData>, target: UInt64)
    requires q != []
    requires forall j :: 0 <= j < |q| ==> q[j].timestamp < target
    ensures HeadPoseAfter(q, target) == (q[|q| - 1].m, [])
  {
  }

  /** A pose that reaches the target is found: with such an entry at `k`, the
      returned pose comes from an entry at or before `k` that reaches the
      target, and only the entries after it stay queued. */
  lemma ReachingPoseFound(q: seq<TrackingData>, target: UInt64, k: nat)
    requires k < |q| && q[k].timestamp >= target
    ensures var r := HeadPoseAfter(q, target); var i := |q| - |r.1| - 1;
      i <= k && q[i].timestamp >= target && r.0 == q[i].m && r.1 == q[i + 1..]
  {
  }

  /** Poses queued after a lookup do not change what the lookup would have
      found, provided one of the earlier poses already reached the target. */
  lemma LaterPosesDoNotMatter(q: seq<TrackingData>, more: seq<TrackingData>, target: UInt64, k: nat)
    requires k < |q| && q[k].timestamp >= target
    ensures var r := HeadPoseAfter(q, target);
      HeadPoseAfter(q + more, target) == (r.0, r.1 + more)
  {
    var i := StopIndex(q, target);
    StopIndexOfAppend(q, more, target, k);
    assert (q + more)[i] == q[i];
    DropOfAppend(q, more, i + 1);
  }

  /** The stopping entry of `q + more` is the one of `q` when some entry of
      `q` reaches the target. */
  lemma StopIndexOfAppend(q: seq<TrackingData>, more: seq<TrackingData>, target: UInt64, k: nat)
    requires k < |q| && q[k].timestamp >= target
    ensures StopIndex(q + more, target) == StopIndex(q, target)
  {
    var i := StopIndex(q, target);
    assert i <= k;
    var qm := q + more;
    forall j | 0 <= j < i
      ensures qm[j].timestamp < target
    {
      assert qm[j] == q[j];
    }
    assert qm[i] == q[i];
    StopIndexUnique(qm, target, i);
  }

  lemma DropOfAppend<T>(a: seq<T>, b: seq<T>, n: nat)
    requires n <= |a|
    ensures (a + b)[n..] == a[n..] + b
  {
  }

  /** The camera's view of the tracking stream. */
  class HeadPoseQueue {
    /** Oldest pose first. */
    var headPoses: seq<TrackingData>
    /** Estimated capture-to-memory delay, in milliseconds. */
    var communicationTime: UInt64

    constructor (communicationTime: UInt64)
      ensures headPoses == [] && this.communicationTime == communicationTime
    {
      headPoses := [];
      this.communicationTime := communicationTime;
    }

    /** `OnNewHeadPose`: one more pose at the tail; the others stay. */
    method OnNewHeadPose(timestamp: UInt64, m: Matrix)
      modifies this`headPoses
      ensures headPoses == old(headPoses) + [TrackingData(timestamp, m)]
    {
      headPoses := headPoses + [TrackingData(timestamp, m)];
    }

    /** `GetHeadPose`: on an empty queue the identity, queue untouched;
        otherwise dequeue, do-while the dequeued pose is earlier than
        `timestamp` and more are queued, and return the last one dequeued. */
    method GetHeadPose(timestamp: UInt64) returns (m: Matrix)
      modifies this`headPoses
      ensures (m, headPoses) == HeadPoseAfter(old(headPoses), timestamp)
    {
      ghost var q := headPoses;
      var td := TrackingData(0, Identity);
      if |headPoses| > 0 {
        ghost var k := 0;
        td := headPoses[0];
        headPoses := headPoses[1..];
        while td.timestamp < timestamp && |headPoses| > 0
          invariant k < |q| && td == q[k] && headPoses == q[k + 1..]
          invariant forall j :: 0 <= j < k ==> q[j].timestamp < timestamp
          decreases |headPoses|
        {
          td := headPoses[0];
          headPoses := headPoses[1..];
          k := k + 1;
        }
        StopIndexUnique(q, timestamp, k);
      }
      m := td.m;
    }

    /** The pose part of `UpdateMeshPosition`: the head pose at the image's
        capture time, corrected for the communication delay. */
    method UpdateMeshPosition(imageTimestamp: UInt64) returns (headPose: Matrix)
      modifies this`headPoses
      ensures (headPose, headPoses) == HeadPoseAfter(old(headPoses), LookupTarget(imageTimestamp, communicationTime))
    {
      var delay := (communicationTime * NanosPerMilli) % UInt64Modulus;
      var target := (imageTimestamp - delay) % UInt64Modulus;
      headPose := GetHeadPose(target);
    }
  }
}
