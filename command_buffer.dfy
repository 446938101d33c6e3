/**
  command_buffer_t::bind_descriptors: Vulkan binds only consecutively
  numbered descriptor sets in one vkCmdBindDescriptorSets, so the list of
  sets is cut into maximal runs whose set ids count up by one, and one bind
  command is recorded per run.  A set id is a uint32_t and the run test
  adds the run length to the first id in 32-bit arithmetic.
 */
module CommandBuffers {
  import opened Vk
  import opened Bindings
  import opened DescriptorSets

  /** One recorded bindDescriptorSets(bindPoint, layout, firstSet, count, handles, 0, nullptr); count is |handles|. */
  datatype BindCall = BindCall(bindPoint: nat, layout: nat, firstSet: nat, handles: seq<nat>)

  /** A run: the sets at positions [start, start + count). */
  datatype Block = Block(start: nat, count: nat)

  /** The set ids of the list, in order. */
  function Ids(sets: seq<DescriptorSet>): (ids: seq<nat>)
    ensures |ids| == |sets|
  {
    seq(|sets|, i requires 0 <= i < |sets| => sets[i].setId)
  }

  /** The native handles of the list, in order (the `handles` vector). */
  function Handles(sets: seq<DescriptorSet>): (hs: seq<nat>)
    ensures |hs| == |sets|
  {
    seq(|sets|, i requires 0 <= i < |sets| => sets[i].handle)
  }

  /** The inner loop's test: the set `c` places after position `start` has the id at `start` plus c, as uint32_t. */
  predicate ContinuesAt(ids: seq<nat>, start: nat, c: nat)
  {
    start + c < |ids| && ids[start + c] == (ids[start] + c) % U32Modulus
  }

  /** The inner loop: from a run of `count` sets at `i`, how long the run grows. */
  function RunLength(ids: seq<nat>, i: nat, count: nat): (n: nat)
    requires 1 <= count && i + count <= |ids|
    ensures count <= n && i + n <= |ids|
    decreases |ids| - i - count
  {
    if ContinuesAt(ids, i, count) then RunLength(ids, i, count + 1) else count
  }

  /** `b` is a maximal run of the ids: every set in it continues the first, and the set after it does not. */
  predicate IsRun(ids: seq<nat>, b: Block)
  {
    && 1 <= b.count && b.start + b.count <= |ids|
    && (forall c :: 1 <= c < b.count ==> ContinuesAt(ids, b.start, c))
    && !ContinuesAt(ids, b.start, b.count)
  }

  /** Growing a run that is consecutive so far ends in a maximal run. */
  lemma {:induction false} RunLengthCorrect(ids: seq<nat>, i: nat, count: nat)
    requires 1 <= count && i + count <= |ids|
    requires forall c :: 1 <= c < count ==> ContinuesAt(ids, i, c)
    ensures IsRun(ids, Block(i, RunLength(ids, i, count)))
    decreases |ids| - i - count
  {
    if ContinuesAt(ids, i, count) {
      RunLengthCorrect(ids, i, count + 1);
    }
  }

  /** The outer loop: the runs from position `from` on, in order. */
  function Blocks(ids: seq<nat>, from: nat): seq<Block>
    requires from <= |ids|
    decreases |ids| - from
  {
    if from == |ids| then []
    else
      var n := RunLength(ids, from, 1);
      [Block(from, n)] + Blocks(ids, from + n)
  }

  /**
    The runs tile [from, |ids|): the first starts at `from`, each starts
    where the one before ended and the last ends at the end of the list.
    There are none exactly when nothing is left.
   */
  lemma {:induction false} BlocksTile(ids: seq<nat>, from: nat)
    requires from <= |ids|
    ensures var bs := Blocks(ids, from);
      && (bs == [] <==> from == |ids|)
      && (bs != [] ==> bs[0].start == from && bs[|bs| - 1].start + bs[|bs| - 1].count == |ids|)
      && (forall k :: 0 <= k < |bs| - 1 ==> bs[k + 1].start == bs[k].start + bs[k].count)
    decreases |ids| - from
  {
    if from < |ids| {
      var n := RunLength(ids, from, 1);
      BlocksTile(ids, from + n);
      var rest := Blocks(ids, from + n);
      var bs := Blocks(ids, from);
      assert bs == [Block(from, n)] + rest;
      forall k | 0 <= k < |bs| - 1 ensures bs[k + 1].start == bs[k].start + bs[k].count {
        if k > 0 {
          assert bs[k] == rest[k - 1] && bs[k + 1] == rest[k];
        }
      }
    }
  }

  /** Every run is maximal: its sets are numbered consecutively and the set after it breaks the numbering. */
  lemma {:induction false} BlocksAreRuns(ids: seq<nat>, from: nat)
    requires from <= |ids|
    ensures forall k :: 0 <= k < |Blocks(ids, from)| ==> IsRun(ids, Blocks(ids, from)[k])
    decreases |ids| - from
  {
    if from < |ids| {
      var n := RunLength(ids, from, 1);
      RunLengthCorrect(ids, from, 1);
      BlocksAreRuns(ids, from + n);
      var rest := Blocks(ids, from + n);
      var bs := Blocks(ids, from);
      assert bs == [Block(from, n)] + rest;
      forall k | 0 <= k < |bs| ensures IsRun(ids, bs[k]) {
        if k > 0 {
          assert bs[k] == rest[k - 1];
        } else {
          assert bs[k] == Block(from, n);
        }
      }
    }
  }

  /** The bind command for one run. */
  function CallOf(bindPoint: nat, layout: nat, sets: seq<DescriptorSet>, b: Block): BindCall
    requires 1 <= b.count && b.start + b.count <= |sets|
  {
    BindCall(bindPoint, layout, sets[b.start].setId, Handles(sets)[b.start..b.start + b.count])
  }

  /** The commands recorded from position `from` on: one per run, in order. */
  function Calls(bindPoint: nat, layout: nat, sets: seq<DescriptorSet>, from: nat): seq<BindCall>
    requires from <= |sets|
    decreases |sets| - from
  {
    if from == |sets| then []
    else
      var n := RunLength(Ids(sets), from, 1);
      [BindCall(bindPoint, layout, sets[from].setId, Handles(sets)[from..from + n])] + Calls(bindPoint, layout, sets, from + n)
  }

  /** Command k binds run k: its first set id and the handles of the sets in it. */
  lemma {:induction false} CallsFollowBlocks(bindPoint: nat, layout: nat, sets: seq<DescriptorSet>, from: nat)
    requires from <= |sets|
    ensures var bs := Blocks(Ids(sets), from);
      var calls := Calls(bindPoint, layout, sets, from);
      && |calls| == |bs|
      && forall k :: 0 <= k < |bs| ==> 1 <= bs[k].count && bs[k].start + bs[k].count <= |sets| && calls[k] == CallOf(bindPoint, layout, sets, bs[k])
    decreases |sets| - from
  {
    if from < |sets| {
      var n := RunLength(Ids(sets), from, 1);
      CallsFollowBlocks(bindPoint, layout, sets, from + n);
      var bs := Blocks(Ids(sets), from);
      var calls := Calls(bindPoint, layout, sets, from);
      var bsRest := Blocks(Ids(sets), from + n);
      var callsRest := Calls(bindPoint, layout, sets, from + n);
      assert bs == [Block(from, n)] + bsRest;
      assert calls == [CallOf(bindPoint, layout, sets, Block(from, n))] + callsRest;
      forall k | 0 <= k < |bs| ensures 1 <= bs[k].count && bs[k].start + bs[k].count <= |sets| && calls[k] == CallOf(bindPoint, layout, sets, bs[k]) {
        if k > 0 {
          assert bs[k] == bsRest[k - 1] && calls[k] == callsRest[k - 1];
        }
      }
    }
  }

  /** The handles of all commands, one after another. */
  function BoundHandles(calls: seq<BindCall>): seq<nat>
  {
    if calls == [] then [] else calls[0].handles + BoundHandles(calls[1..])
  }

  /** Every set from `from` on is bound exactly once, in order: the commands' handles, joined, are the list's handles. */
  lemma {:induction false} CallsBindEverySet(bindPoint: nat, layout: nat, sets: seq<DescriptorSet>, from: nat)
    requires from <= |sets|
    ensures BoundHandles(Calls(bindPoint, layout, sets, from)) == Handles(sets)[from..]
    decreases |sets| - from
  {
    if from < |sets| {
      var n := RunLength(Ids(sets), from, 1);
      var hs := Handles(sets);
      CallsBindEverySet(bindPoint, layout, sets, from + n);
      var rest := Calls(bindPoint, layout, sets, from + n);
      var calls := Calls(bindPoint, layout, sets, from);
      assert calls == [BindCall(bindPoint, layout, sets[from].setId, hs[from..from + n])] + rest;
      assert calls[1..] == rest;
      assert BoundHandles(calls) == hs[from..from + n] + BoundHandles(rest);
      assert hs[from..] == hs[from..from + n] + hs[from + n..];
    }
  }

  /** The inner loop of bind_descriptors: the length of the run of consecutively numbered sets at `descIdx`. */
  method MeasureRun(sets: seq<DescriptorSet>, descIdx: nat) returns (count: nat)
    requires descIdx < |sets|
    ensures count == RunLength(Ids(sets), descIdx, 1)
    ensures IsRun(Ids(sets), Block(descIdx, count))
  {
    var setId := sets[descIdx].setId;
    count := 1;
    while descIdx + count < |sets| && sets[descIdx + count].setId == (setId + count) % U32Modulus
      invariant 1 <= count && descIdx + count <= |sets|
      invariant RunLength(Ids(sets), descIdx, count) == RunLength(Ids(sets), descIdx, 1)
      decreases |sets| - descIdx - count
    {
      count := count + 1;
    }
    RunLengthCorrect(Ids(sets), descIdx, 1);
  }

  /** The first loop of bind_descriptors: the handle of every set, in order. */
  method CollectHandles(sets: seq<DescriptorSet>) returns (handles: seq<nat>)
    ensures handles == Handles(sets)
  {
    handles := [];
    for k := 0 to |sets|
      invariant |handles| == k && forall i :: 0 <= i < k ==> handles[i] == sets[i].handle
    {
      handles := handles + [sets[k].handle];
    }
  }

  /** The command buffer, as far as descriptor binding goes: the commands recorded into it. */
  class CommandBuffer {
    /** The bindDescriptorSets commands recorded so far, in order. */
    var commands: seq<BindCall>

    constructor ()
      ensures commands == []
    {
      commands := [];
    }

    /** handle().bindDescriptorSets: records one command. */
    method RecordBind(call: BindCall)
      modifies this
      ensures commands == old(commands) + [call]
    {
      commands := commands + [call];
    }

    /**
      command_buffer_t::bind_descriptors: nothing is recorded for an empty
      list; otherwise one command per maximal run of consecutively numbered
      sets, in order.
     */
    method BindDescriptors(bindPoint: nat, layout: nat, sets: seq<DescriptorSet>)
      modifies this
      ensures commands == old(commands) + Calls(bindPoint, layout, sets, 0)
      ensures sets == [] ==> commands == old(commands)
    {
      if |sets| == 0 {
        // Only a warning: there is nothing to bind.
        return;
      }
      var handles := CollectHandles(sets);
      var descIdx := 0;
      while descIdx < |sets|
        invariant descIdx <= |sets|
        invariant old(commands) + Calls(bindPoint, layout, sets, 0) == commands + Calls(bindPoint, layout, sets, descIdx)
        decreases |sets| - descIdx
      {
        var count := MeasureRun(sets, descIdx);
        assert Calls(bindPoint, layout, sets, descIdx)
            == [BindCall(bindPoint, layout, sets[descIdx].setId, handles[descIdx..descIdx + count])]
               + Calls(bindPoint, layout, sets, descIdx + count);
        RecordBind(BindCall(bindPoint, layout, sets[descIdx].setId, handles[descIdx..descIdx + count]));
        descIdx := descIdx + count;
      }
    }
  }
}
