/**
 * `DescriptorPoolVulkan`: a per-frame-slot cache of binding sets.
 *
 * The cache is a growable list of descriptor-set groups consumed through a
 * cursor. `Get` hands out the next cached group, or, when the cursor has
 * reached the end, allocates one group from the native pool and appends it.
 * `Reset` rewinds the cursor and frees nothing, so the groups allocated in
 * one frame are handed out again in the next use of the same slot.
 *
 * The native allocation (`allocateDescriptorSets` with two set layouts of the
 * pipeline) is not modelled: the group the device would return is a
 * parameter of `Get`, used only when the cache has no unconsumed group.
 */
module DescriptorPool {
  import opened VulkanTypes

  /** A group of descriptor sets, one per shader stage, as one allocation returns it. */
  type SetGroup = seq<DescriptorSet>

  predicate IsGroup(g: SetGroup) {
    |g| == ShaderStageCount
  }

  predicate AllGroups(gs: seq<SetGroup>) {
    forall i :: 0 <= i < |gs| ==> IsGroup(gs[i])
  }

  /** The cache and the cursor of a pool, as a value. */
  datatype PoolState = PoolState(cache: seq<SetGroup>, offset: int)

  /** The pool invariant: the cursor never passes the end of the cache. */
  predicate WellFormed(s: PoolState) {
    0 <= s.offset <= |s.cache| && AllGroups(s.cache)
  }

  datatype GetResult = GetResult(state: PoolState, sets: SetGroup)

  function Max(a: int, b: int): int {
    if a < b then b else a
  }

  /**
   * One `Get`: a cache hit returns the group under the cursor; a miss appends
   * the freshly allocated group. Either way the cursor advances by one and the
   * group returned is the one now stored at the old cursor.
   */
  function PoolGet(s: PoolState, fromDevice: SetGroup): (r: GetResult)
    requires WellFormed(s) && IsGroup(fromDevice)
    ensures WellFormed(r.state)
    ensures r.state.offset == s.offset + 1
    ensures s.cache <= r.state.cache
    ensures |r.state.cache| == Max(|s.cache|, s.offset + 1)
    ensures r.sets == r.state.cache[s.offset]
    ensures s.offset == |s.cache| ==> r.sets == fromDevice
  {
    if |s.cache| > s.offset then
      GetResult(PoolState(s.cache, s.offset + 1), s.cache[s.offset])
    else
      GetResult(PoolState(s.cache + [fromDevice], s.offset + 1), fromDevice)
  }

  /** `Reset`: every cached group is kept and the cursor goes back to the first. */
  function PoolReset(s: PoolState): (r: PoolState)
    ensures r.cache == s.cache && r.offset == 0
    ensures WellFormed(s) ==> WellFormed(r)
  {
    PoolState(s.cache, 0)
  }

  datatype GetsResult = GetsResult(state: PoolState, returned: seq<SetGroup>)

  /**
   * `|allocs|` consecutive calls of `Get`; the i-th call is handed `allocs[i]`
   * as what the device would allocate if asked.
   */
  function PoolGets(s: PoolState, allocs: seq<SetGroup>): (r: GetsResult)
    requires WellFormed(s) && AllGroups(allocs)
    ensures WellFormed(r.state)
    ensures |r.returned| == |allocs|
    decreases |allocs|
  {
    if allocs == [] then GetsResult(s, [])
    else
      var g := PoolGet(s, allocs[0]);
      var rest := PoolGets(g.state, allocs[1..]);
      GetsResult(rest.state, [g.sets] + rest.returned)
  }

  function Min(a: int, b: int): int {
    if a < b then a else b
  }

  /** `Get`s that all find an unconsumed group: nothing is appended. */
  lemma {:induction false} GetsAllHit(s: PoolState, allocs: seq<SetGroup>)
    requires WellFormed(s) && AllGroups(allocs)
    requires s.offset + |allocs| <= |s.cache|
    ensures PoolGets(s, allocs).state == PoolState(s.cache, s.offset + |allocs|)
    ensures PoolGets(s, allocs).returned == s.cache[s.offset..s.offset + |allocs|]
    decreases |allocs|
  {
    if allocs != [] {
      var g := PoolGet(s, allocs[0]);
      GetsAllHit(g.state, allocs[1..]);
      assert s.cache[s.offset..s.offset + |allocs|]
          == [s.cache[s.offset]] + s.cache[s.offset + 1..s.offset + |allocs|];
    }
  }

  /** `Get`s from an exhausted cache: each one appends and returns its own allocation. */
  lemma {:induction false} GetsAllMiss(s: PoolState, allocs: seq<SetGroup>)
    requires WellFormed(s) && AllGroups(allocs)
    requires s.offset == |s.cache|
    ensures PoolGets(s, allocs).state == PoolState(s.cache + allocs, s.offset + |allocs|)
    ensures PoolGets(s, allocs).returned == allocs
    decreases |allocs|
  {
    if allocs != [] {
      var g := PoolGet(s, allocs[0]);
      GetsAllMiss(g.state, allocs[1..]);
      assert s.cache + [allocs[0]] + allocs[1..] == s.cache + allocs;
      assert [allocs[0]] + allocs[1..] == allocs;
    }
  }

  lemma JoinGroups(a: seq<SetGroup>, b: seq<SetGroup>)
    requires AllGroups(a) && AllGroups(b)
    ensures AllGroups(a + b)
  {
    forall i | 0 <= i < |a + b| ensures IsGroup((a + b)[i]) {
      if i < |a| { assert (a + b)[i] == a[i]; } else { assert (a + b)[i] == b[i - |a|]; }
    }
  }

  /** Running the `Get`s of `a + b` is running those of `a`, then those of `b`. */
  lemma {:induction false} GetsSplit(s: PoolState, a: seq<SetGroup>, b: seq<SetGroup>)
    requires WellFormed(s) && AllGroups(a) && AllGroups(b)
    ensures AllGroups(a + b)
    ensures var r1 := PoolGets(s, a);
            var r2 := PoolGets(r1.state, b);
            PoolGets(s, a + b) == GetsResult(r2.state, r1.returned + r2.returned)
    decreases |a|
  {
    JoinGroups(a, b);
    if a != [] {
      var g := PoolGet(s, a[0]);
      JoinGroups(a[1..], b);
      assert (a + b)[0] == a[0] && (a + b)[1..] == a[1..] + b;
      var rest := PoolGets(g.state, a[1..]);
      var r2 := PoolGets(rest.state, b);
      GetsSplit(g.state, a[1..], b);
      assert PoolGets(g.state, a[1..] + b) == GetsResult(r2.state, rest.returned + r2.returned);
      assert [g.sets] + (rest.returned + r2.returned) == [g.sets] + rest.returned + r2.returned;
    } else {
      assert a + b == b;
    }
  }

  /** Both halves of a list of groups split at k are lists of groups. */
  lemma SplitGroups(allocs: seq<SetGroup>, k: int)
    requires AllGroups(allocs) && 0 <= k <= |allocs|
    ensures AllGroups(allocs[..k]) && AllGroups(allocs[k..])
    ensures allocs == allocs[..k] + allocs[k..]
  {
  }

  /**
   * The effect of k consecutive `Get`s from cursor o: the first
   * min(k, |cache| - o) are hits that return the cached groups from o on;
   * every later one allocates, appends and returns its own group. The cache
   * only ever grows, and ends as long as the furthest cursor position.
   */
  lemma PoolGetsEffect(s: PoolState, allocs: seq<SetGroup>)
    requires WellFormed(s) && AllGroups(allocs)
    ensures var hits := Min(|allocs|, |s.cache| - s.offset);
            var r := PoolGets(s, allocs);
            && r.state.offset == s.offset + |allocs|
            && r.state.cache == s.cache + allocs[hits..]
            && r.returned == s.cache[s.offset..s.offset + hits] + allocs[hits..]
            && |r.state.cache| == Max(|s.cache|, s.offset + |allocs|)
  {
    var hits := Min(|allocs|, |s.cache| - s.offset);
    var a, b := allocs[..hits], allocs[hits..];
    SplitGroups(allocs, hits);
    var r1 := PoolGets(s, a);
    assert r1 == GetsResult(PoolState(s.cache, s.offset + hits), s.cache[s.offset..s.offset + hits]) by {
      GetsAllHit(s, a);
    }
    var r2 := PoolGets(r1.state, b);
    assert r2 == GetsResult(PoolState(s.cache + b, s.offset + |allocs|), b) by {
      if b == [] {
        assert s.cache + b == s.cache;
      } else {
        GetsAllMiss(r1.state, b);
      }
    }
    GetsSplit(s, a, b);
  }

  /**
   * Reuse after `Reset`: replaying at most as many `Get`s as the cache holds
   * returns the cached groups in order and allocates nothing, whatever the
   * device would have handed out.
   */
  lemma ReplayAfterReset(s: PoolState, allocs: seq<SetGroup>)
    requires WellFormed(s) && AllGroups(allocs)
    requires |allocs| <= |s.cache|
    ensures PoolGets(PoolReset(s), allocs).returned == s.cache[..|allocs|]
    ensures PoolGets(PoolReset(s), allocs).state == PoolState(s.cache, |allocs|)
  {
    PoolGetsEffect(PoolReset(s), allocs);
    assert allocs[|allocs|..] == [];
  }

  /**
   * A frame started by `Reset` is handed the first groups of the cache it
   * leaves behind, in order.
   */
  lemma FrameReturnsCachePrefix(s: PoolState, allocs: seq<SetGroup>)
    requires WellFormed(s) && AllGroups(allocs)
    ensures var r := PoolGets(PoolReset(s), allocs);
            |allocs| <= |r.state.cache| && r.returned == r.state.cache[..|allocs|]
  {
    var r := PoolGets(PoolReset(s), allocs);
    PoolGetsEffect(PoolReset(s), allocs);
    var hits := Min(|allocs|, |s.cache|);
    if hits == |allocs| {
      assert allocs[hits..] == [];
      assert r.state.cache == s.cache;
      assert r.returned == s.cache[0..|allocs|];
    } else {
      assert r.state.cache == s.cache + allocs[hits..];
      assert r.returned == s.cache[0..hits] + allocs[hits..];
      assert s.cache[0..hits] == s.cache;
    }
  }

  /**
   * Two uses of one frame slot: after a first frame of `Get`s and a `Reset`,
   * a second frame with no more `Get`s than the first is handed exactly the
   * groups the first was handed, and the cache does not change.
   */
  lemma SecondFrameReusesFirst(s: PoolState, first: seq<SetGroup>, second: seq<SetGroup>)
    requires WellFormed(s) && AllGroups(first) && AllGroups(second)
    requires |second| <= |first|
    ensures var f1 := PoolGets(PoolReset(s), first);
            var f2 := PoolGets(PoolReset(f1.state), second);
            && f2.returned == f1.returned[..|second|]
            && f2.state.cache == f1.state.cache
  {
    var f1 := PoolGets(PoolReset(s), first);
    var f2 := PoolGets(PoolReset(f1.state), second);
    FrameReturnsCachePrefix(s, first);
    ReplayAfterReset(f1.state, second);
    PrefixOfPrefix(f1.state.cache, f1.returned, f2.returned, |first|, |second|);
  }

  lemma PrefixOfPrefix(c: seq<SetGroup>, long: seq<SetGroup>, short: seq<SetGroup>, m: nat, n: nat)
    requires n <= m <= |c| && long == c[..m] && short == c[..n]
    ensures short == long[..n]
  {
  }

  /**
   * The native side of one cache: the pool's capacity and its cache of
   * allocated groups with the consumption cursor.
   */
  class DescriptorPoolVulkan {
    /** The number of draws per frame the pool is sized for. */
    const size: int
    /** The number of shader stages that each draw allocates one set for. */
    const stage: int
    /** `maxSets` of the native pool. */
    const maxSets: int

    var cache: seq<SetGroup>
    var offset: int

    ghost predicate Valid()
      reads this
    {
      WellFormed(State())
    }

    function State(): PoolState
      reads this
    {
      PoolState(cache, offset)
    }

    constructor (size: int, stage: int)
      ensures this.size == size && this.stage == stage && maxSets == size * stage
      ensures Valid() && cache == [] && offset == 0
    {
      this.size := size;
      this.stage := stage;
      maxSets := size * stage;
      cache := [];
      offset := 0;
    }

    method Get(fromDevice: SetGroup) returns (sets: SetGroup)
      requires Valid() && IsGroup(fromDevice)
      modifies this
      ensures Valid()
      ensures GetResult(State(), sets) == PoolGet(old(State()), fromDevice)
      ensures old(offset) < |old(cache)| ==> cache == old(cache) && sets == old(cache)[old(offset)]
      ensures old(offset) == |old(cache)| ==> cache == old(cache) + [fromDevice] && sets == fromDevice
    {
      if |cache| > offset {
        offset := offset + 1;
        sets := cache[offset - 1];
        return;
      }
      cache := cache + [fromDevice];
      offset := offset + 1;
      sets := cache[offset - 1];
    }

    method Reset()
      requires Valid()
      modifies this`offset
      ensures Valid()
      ensures State() == PoolReset(old(State()))
    {
      offset := 0;
    }
  }
}
