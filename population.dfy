/**
 * How many blobs there are: 5 on narrow canvases and 8 otherwise at setup,
 * plus one every 360th frame while fewer than 10 exist.  Nothing removes one.
 */
module Population {

  const MaxBlobs: nat := 10
  const SpawnInterval: nat := 360
  const NarrowCanvas: real := 380.0

  /** The setup count for a canvas of width cw. */
  function InitialBlobCount(cw: real): (n: nat)
    ensures n <= MaxBlobs
    ensures n == 5 <==> cw < NarrowCanvas
    ensures n == 8 <==> cw >= NarrowCanvas
  {
    if cw < NarrowCanvas then 5 else 8
  }

  predicate SpawnsAt(frameCount: nat)
  {
    frameCount % SpawnInterval == 0
  }

  /** The count after the frame numbered frameCount. */
  function NextCount(n: nat, frameCount: nat): (m: nat)
    ensures m == n || m == n + 1
    ensures m == n + 1 <==> SpawnsAt(frameCount) && n < MaxBlobs
    ensures n <= MaxBlobs ==> m <= MaxBlobs
  {
    if SpawnsAt(frameCount) && n < MaxBlobs then n + 1 else n
  }

  /** The count after a run of frames. */
  function CountAfter(n: nat, frames: seq<nat>): nat
    decreases |frames|
  {
    if frames == [] then n else CountAfter(NextCount(n, frames[0]), frames[1..])
  }

  /** How many frames of a run fall on the spawn interval. */
  function SpawnTicks(frames: seq<nat>): (k: nat)
    ensures k <= |frames|
    decreases |frames|
  {
    if frames == [] then 0 else (if SpawnsAt(frames[0]) then 1 else 0) + SpawnTicks(frames[1..])
  }

  function MinNat(a: nat, b: nat): nat { if a <= b then a else b }

  /**
   * Starting from at most 10 blobs, a run of frames adds one blob per spawn
   * frame until there are 10: the count is min(10, n + spawn frames), so it
   * never exceeds 10 and never decreases.
   */
  lemma {:induction false} CountAfterExact(n: nat, frames: seq<nat>)
    requires n <= MaxBlobs
    ensures CountAfter(n, frames) == MinNat(MaxBlobs, n + SpawnTicks(frames))
    ensures n <= CountAfter(n, frames) <= MaxBlobs
    decreases |frames|
  {
    if frames != [] {
      CountAfterExact(NextCount(n, frames[0]), frames[1..]);
    }
  }

  /** 360 consecutive frames always include one spawn frame. */
  lemma {:induction false} IntervalHasSpawn(start: nat, frames: seq<nat>)
    requires |frames| == SpawnInterval
    requires forall i :: 0 <= i < |frames| ==> frames[i] == start + i
    ensures SpawnTicks(frames) >= 1
  {
    var k := (SpawnInterval - start % SpawnInterval) % SpawnInterval;
    assert SpawnsAt(frames[k]);
    SpawnTicksSees(frames, k);
  }

  lemma {:induction false} SpawnTicksSees(frames: seq<nat>, k: nat)
    requires k < |frames| && SpawnsAt(frames[k])
    ensures SpawnTicks(frames) >= 1
    decreases k
  {
    if k > 0 {
      SpawnTicksSees(frames[1..], k - 1);
    }
  }
}
