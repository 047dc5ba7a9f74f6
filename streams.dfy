/**
 * The stream records of the playlist (`Stream` and the persisted
 * `PlayerCfg` of src/player.rs) and the pure look-ups the player runs
 * over its list: search by id, removal at a position and the
 * maximum-id fold used when a configuration file is loaded.
 */
module Streams {
  import opened Wrappers

  /** Number of values of Rust's `usize` on a 64-bit target. */
  const USIZE_MOD: int := 0x1_0000_0000_0000_0000
  const USIZE_MAX: int := USIZE_MOD - 1

  /** Rust's `usize`: ids, the cursor and the id counter all have this type. */
  type Usize = x: int | 0 <= x < USIZE_MOD

  /** `x + 1` as a release build computes it: wraps to 0 past `usize::MAX`. */
  function WrappingInc(x: Usize): (r: Usize)
    ensures x < USIZE_MAX ==> r == x + 1
    ensures x == USIZE_MAX ==> r == 0
  {
    (x + 1) % USIZE_MOD
  }

  /** `x - 1` as a release build computes it: 0 wraps to `usize::MAX`. */
  function WrappingDec(x: Usize): (r: Usize)
    ensures 0 < x ==> r == x - 1
    ensures x == 0 ==> r == USIZE_MAX
  {
    (x - 1) % USIZE_MOD
  }

  /** One playlist entry. Its identity is `id`. */
  datatype Stream = Stream(id: Usize, name: string, url: string)

  /**
   * What the configuration file holds: the ordered list and the cursor.
   * The id counter is skipped by the serialiser and recomputed on load.
   */
  datatype SavedCfg = SavedCfg(streams: seq<Stream>, current: Usize)

  /**
   * The index of the first stream whose id is `id`, as
   * `iter().position(|s| s.id == id)` finds it (`iter().find` returns
   * the stream at that same index).
   */
  function Position(streams: seq<Stream>, id: Usize): (r: Option<nat>)
    ensures r.Some? ==> r.value < |streams| && streams[r.value].id == id
    ensures r.Some? ==> forall j :: 0 <= j < r.value ==> streams[j].id != id
    ensures r.None? <==> forall j :: 0 <= j < |streams| ==> streams[j].id != id
  {
    if streams == [] then None
    else if streams[0].id == id then Some(0)
    else match Position(streams[1..], id)
      case None => None
      case Some(k) => Some(k + 1)
  }

  /** `Vec::remove(k)`: the list without position `k`, the rest in order. */
  function RemoveAt(streams: seq<Stream>, k: nat): (r: seq<Stream>)
    requires k < |streams|
    ensures |r| == |streams| - 1
    ensures forall j :: 0 <= j < k ==> r[j] == streams[j]
    ensures forall j :: k <= j < |r| ==> r[j] == streams[j + 1]
    ensures multiset(r) + multiset{streams[k]} == multiset(streams)
  {
    assert streams == streams[..k] + [streams[k]] + streams[k + 1..];
    streams[..k] + streams[k + 1..]
  }

  /**
   * `streams.iter().fold(acc, |acc, s| cmp::max(acc, s.id))`: the
   * largest of `acc` and every id in the list.
   */
  function FoldMax(acc: Usize, streams: seq<Stream>): (r: Usize)
    ensures acc <= r
    ensures forall i :: 0 <= i < |streams| ==> streams[i].id <= r
    ensures r == acc || exists i :: 0 <= i < |streams| && streams[i].id == r
    decreases streams
  {
    if streams == [] then acc
    else FoldMax(if acc < streams[0].id then streams[0].id else acc, streams[1..])
  }

  /** The id counter recovered on load: the fold started from 0. */
  function MaxId(streams: seq<Stream>): Usize
  {
    FoldMax(0, streams)
  }

  /** Folding over one more stream takes the larger of the old fold and its id. */
  lemma {:induction false} FoldMaxAppend(acc: Usize, streams: seq<Stream>, s: Stream)
    ensures FoldMax(acc, streams + [s]) ==
            if FoldMax(acc, streams) < s.id then s.id else FoldMax(acc, streams)
    decreases streams
  {
    if streams == [] {
      assert streams + [s] == [s];
    } else {
      var acc' := if acc < streams[0].id then streams[0].id else acc;
      assert (streams + [s])[1..] == streams[1..] + [s];
      FoldMaxAppend(acc', streams[1..], s);
    }
  }

  /**
   * Reloading a list whose last entry was appended by `add` (id one past
   * a counter that bounds every earlier id) recovers that id as the counter.
   */
  lemma ReloadRecoversCounter(streams: seq<Stream>, last: Usize, s: Stream)
    requires forall i :: 0 <= i < |streams| ==> streams[i].id <= last
    requires s.id == last + 1
    ensures MaxId(streams + [s]) == s.id
  {
    FoldMaxAppend(0, streams, s);
  }
}
