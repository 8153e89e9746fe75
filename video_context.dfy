/**
 * The session video store (src/context/VideoContext.tsx): an append-only
 * sequence of records, held by the provider and handed to every screen.
 */
module VideoContext {
  import opened Types

  /**
   * The store's only write, `[...prev, video]`: a fresh sequence one longer,
   * with every earlier record at its old position and `v` last. No field of
   * `v` is checked, its `id` included.
   */
  function Append(videos: seq<Video>, v: Video): (r: seq<Video>)
    ensures |r| == |videos| + 1
    ensures r[|videos|] == v
    ensures forall i :: 0 <= i < |videos| ==> r[i] == videos[i]
  {
    videos + [v]
  }

  /** The store after `records` are appended one call at a time, first to last. */
  function Replay(videos: seq<Video>, records: seq<Video>): seq<Video>
    decreases |records|
  {
    if records == [] then videos else Replay(Append(videos, records[0]), records[1..])
  }

  /**
   * Appending r1, ..., rn leaves exactly the old records followed by
   * r1, ..., rn in call order; from the empty store, exactly [r1, ..., rn].
   */
  lemma {:induction false} ReplayIsConcat(videos: seq<Video>, records: seq<Video>)
    ensures Replay(videos, records) == videos + records
    decreases |records|
  {
    if records != [] {
      ReplayIsConcat(Append(videos, records[0]), records[1..]);
      assert Append(videos, records[0]) + records[1..] == videos + records;
    }
  }

  /** How many records of `videos` carry `id`. */
  function CountId(videos: seq<Video>, id: string): nat
  {
    if videos == [] then 0 else (if videos[0].id == id then 1 else 0) + CountId(videos[1..], id)
  }

  lemma {:induction false} CountIdZeroIff(videos: seq<Video>, id: string)
    ensures CountId(videos, id) == 0 <==> forall i :: 0 <= i < |videos| ==> videos[i].id != id
  {
    if videos != [] {
      CountIdZeroIff(videos[1..], id);
      assert forall i :: 1 <= i < |videos| ==> videos[i] == videos[1..][i - 1];
    }
  }

  /** Appending adds one record carrying `v.id` and none carrying any other id. */
  lemma {:induction false} CountIdAppend(videos: seq<Video>, v: Video, id: string)
    ensures CountId(Append(videos, v), id) == CountId(videos, id) + (if v.id == id then 1 else 0)
  {
    if videos != [] {
      assert Append(videos, v)[1..] == Append(videos[1..], v);
      CountIdAppend(videos[1..], v, id);
    }
  }

  /** There is no duplicate-id guard: a record whose id is taken is appended all the same. */
  lemma DuplicateIdAppended(videos: seq<Video>, v: Video)
    requires exists i :: 0 <= i < |videos| && videos[i].id == v.id
    ensures |Append(videos, v)| == |videos| + 1
    ensures CountId(Append(videos, v), v.id) >= 2
  {
    CountIdZeroIff(videos, v.id);
    CountIdAppend(videos, v, v.id);
  }

  /**
   * The value a screen gets from `useVideoContext()`. Under a `VideoProvider`
   * (`provided`) it is the provider's state cell; without one it is the
   * context's default value, whose `addVideo` does nothing.
   */
  class VideoStore {
    var videos: seq<Video>
    const provided: bool

    /** `useState<Video[]>([])` inside `VideoProvider`. */
    constructor Provider()
      ensures provided && videos == []
    {
      provided := true;
      videos := [];
    }

    /** The default value given to `createContext`. */
    constructor ContextDefault()
      ensures !provided && videos == []
    {
      provided := false;
      videos := [];
    }

    /**
     * `addVideo`: the state cell is replaced by a fresh sequence. A sequence a
     * screen read earlier is a value and is not altered.
     */
    method AddVideo(v: Video)
      modifies this
      ensures videos == if provided then Append(old(videos), v) else old(videos)
    {
      if provided {
        videos := Append(videos, v);
      }
    }
  }
}
